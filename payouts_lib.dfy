/** The payout library (`src/lib/payouts.ts`): one payout row per user a day,
    interest at 120% a year on the principal of the lots running that day plus
    the repayments dated that day; and the day's confirmation, which turns the
    pending rows into completed ones. */
module PayoutsLib {
  import opened Common
  import opened Folds
  import opened Tally
  import opened Store

  /** Interest per day on principal: 120% a year. */
  const DAILY_RATE_TOTAL: real := 1.2 / 365.0

  function RepOwner(r: Repayment): string { r.refCode }
  function RepAmount(r: Repayment): real { r.amount }

  function RepaidOn(date: Date): Repayment -> bool {
    (r: Repayment) => r.repayDate == Some(date)
  }

  /** `principalByRef`: principal per user over the lots running on `date`. */
  function PrincipalByRef(date: Date, invs: seq<Investment>): Tally<string> {
    Collect(Filter(invs, ActiveAt(date)), InvOwner, InvPrincipal)
  }

  /** `repayByRef`: repayments per user dated `date`. */
  function RepayByRef(date: Date, repays: seq<Repayment>): Tally<string> {
    Collect(Filter(repays, RepaidOn(date)), RepOwner, RepAmount)
  }

  /** What lot `inv` adds to `rc`'s principal on `date`. */
  function LotPrincipal(date: Date, rc: string): Investment -> real {
    inv => if ActiveOn(inv, date) && inv.refCode == rc then inv.amountUsdt else 0.0
  }

  /** What repayment `r` adds to `rc`'s repayments of `date`. */
  function DayRepaid(date: Date, rc: string): Repayment -> real {
    (r: Repayment) => if r.repayDate == Some(date) && r.refCode == rc then r.amount else 0.0
  }

  /** A user's principal is the sum over that user's running lots, and a user
      has an entry iff it owns a running lot. */
  lemma PrincipalByRefFacts(date: Date, invs: seq<Investment>)
    ensures Valid(PrincipalByRef(date, invs))
    ensures forall rc :: Get0(PrincipalByRef(date, invs), rc) == Sum(invs, LotPrincipal(date, rc))
    ensures forall rc :: Has(PrincipalByRef(date, invs), rc) <==> HasActiveLot(date, invs, rc)
  {
    var act := Filter(invs, ActiveAt(date));
    CollectFacts(act, InvOwner, InvPrincipal);
    forall rc ensures Get0(PrincipalByRef(date, invs), rc) == Sum(invs, LotPrincipal(date, rc)) {
      forall x ensures LotPrincipal(date, rc)(x) == (if ActiveAt(date)(x) then Where(InvOwner, InvPrincipal, rc)(x) else 0.0) {
        assert ActiveAt(date)(x) == ActiveOn(x, date);
        assert Where(InvOwner, InvPrincipal, rc)(x) == (if InvOwner(x) == rc then InvPrincipal(x) else 0.0);
      }
      SumFilter(invs, ActiveAt(date), Where(InvOwner, InvPrincipal, rc), LotPrincipal(date, rc));
    }
    forall rc ensures Has(PrincipalByRef(date, invs), rc) <==> HasActiveLot(date, invs, rc)
    {
      if Has(PrincipalByRef(date, invs), rc) {
        var i :| 0 <= i < |act| && InvOwner(act[i]) == rc;
        assert act[i] in act;
        var j :| 0 <= j < |invs| && invs[j] == act[i];
      }
      if exists j :: 0 <= j < |invs| && ActiveOn(invs[j], date) && invs[j].refCode == rc {
        var j :| 0 <= j < |invs| && ActiveOn(invs[j], date) && invs[j].refCode == rc;
        assert invs[j] in invs && ActiveAt(date)(invs[j]);
        var i :| 0 <= i < |act| && act[i] == invs[j];
      }
    }
  }

  /** A user's repayment is the sum of that user's repayments dated `date`, and
      a user has an entry iff one exists. */
  lemma RepayByRefFacts(date: Date, repays: seq<Repayment>)
    ensures Valid(RepayByRef(date, repays))
    ensures forall rc :: Get0(RepayByRef(date, repays), rc) == Sum(repays, DayRepaid(date, rc))
    ensures forall rc :: Has(RepayByRef(date, repays), rc) <==> RepaidThatDay(date, repays, rc)
  {
    var day := Filter(repays, RepaidOn(date));
    CollectFacts(day, RepOwner, RepAmount);
    forall rc ensures Get0(RepayByRef(date, repays), rc) == Sum(repays, DayRepaid(date, rc)) {
      forall x ensures DayRepaid(date, rc)(x) == (if RepaidOn(date)(x) then Where(RepOwner, RepAmount, rc)(x) else 0.0) {
        assert Where(RepOwner, RepAmount, rc)(x) == (if RepOwner(x) == rc then RepAmount(x) else 0.0);
      }
      SumFilter(repays, RepaidOn(date), Where(RepOwner, RepAmount, rc), DayRepaid(date, rc));
    }
    forall rc ensures Has(RepayByRef(date, repays), rc) <==> RepaidThatDay(date, repays, rc)
    {
      if Has(RepayByRef(date, repays), rc) {
        var i :| 0 <= i < |day| && RepOwner(day[i]) == rc;
        assert day[i] in day;
        var j :| 0 <= j < |repays| && repays[j] == day[i];
      }
      if exists j :: 0 <= j < |repays| && repays[j].repayDate == Some(date) && repays[j].refCode == rc {
        var j :| 0 <= j < |repays| && repays[j].repayDate == Some(date) && repays[j].refCode == rc;
        assert repays[j] in repays && RepaidOn(date)(repays[j]);
        var i :| 0 <= i < |day| && day[i] == repays[j];
      }
    }
  }

  /** The loop over `investments`. */
  method SumPrincipal(date: Date, invs: seq<Investment>) returns (principalByRef: Tally<string>)
    ensures principalByRef == PrincipalByRef(date, invs)
  {
    principalByRef := [];
    for i := 0 to |invs|
      invariant principalByRef == PrincipalByRef(date, invs[..i])
    {
      var row := invs[i];
      var before := Filter(invs[..i], ActiveAt(date));
      FilterStep(invs, i, ActiveAt(date));
      assert ActiveAt(date)(row) == ActiveOn(row, date);
      if row.investDate.Some? && row.maturityDate.Some? &&
         row.investDate.value <= date && row.maturityDate.value >= date {
        assert Filter(invs[..i + 1], ActiveAt(date)) == before + [row];
        CollectSnoc(before, row, InvOwner, InvPrincipal);
        assert InvOwner(row) == row.refCode && InvPrincipal(row) == row.amountUsdt;
        principalByRef := Add(principalByRef, row.refCode, row.amountUsdt);
      } else {
        assert Filter(invs[..i + 1], ActiveAt(date)) == before;
      }
    }
    assert invs[..|invs|] == invs;
  }

  /** The loop over the day's repayments. */
  method SumRepaid(date: Date, repays: seq<Repayment>) returns (repayByRef: Tally<string>)
    ensures repayByRef == RepayByRef(date, repays)
  {
    repayByRef := [];
    for i := 0 to |repays|
      invariant repayByRef == RepayByRef(date, repays[..i])
    {
      var r := repays[i];
      var before := Filter(repays[..i], RepaidOn(date));
      FilterStep(repays, i, RepaidOn(date));
      assert RepaidOn(date)(r) == (r.repayDate == Some(date));
      if r.repayDate == Some(date) {
        assert Filter(repays[..i + 1], RepaidOn(date)) == before + [r];
        CollectSnoc(before, r, RepOwner, RepAmount);
        assert RepOwner(r) == r.refCode && RepAmount(r) == r.amount;
        repayByRef := Add(repayByRef, r.refCode, r.amount);
      } else {
        assert Filter(repays[..i + 1], RepaidOn(date)) == before;
      }
    }
    assert repays[..|repays|] == repays;
  }

  /** The row for one user. The library sends no user_name. */
  function LibRow(date: Date, principalByRef: Tally<string>, repayByRef: Tally<string>, rc: string): TransferRow {
    var interest := Get0(principalByRef, rc) * DAILY_RATE_TOTAL;
    var repay := Get0(repayByRef, rc);
    TransferRow(rc, None, date, repay, interest, interest + repay, "pending")
  }

  /** `Array.from(refs).map(...)` over the union of both maps' keys. */
  function LibRows(date: Date, principalByRef: Tally<string>, repayByRef: Tally<string>): (rows: seq<TransferRow>)
    ensures |rows| == |UnionKeys(principalByRef, repayByRef)|
    ensures forall i :: 0 <= i < |rows| ==>
              rows[i] == LibRow(date, principalByRef, repayByRef, UnionKeys(principalByRef, repayByRef)[i])
  {
    var keys := UnionKeys(principalByRef, repayByRef);
    seq(|keys|, i requires 0 <= i < |keys| => LibRow(date, principalByRef, repayByRef, keys[i]))
  }

  /** The day's rows for the given tables. */
  function PayoutRows(date: Date, invs: seq<Investment>, repays: seq<Repayment>): seq<TransferRow> {
    LibRows(date, PrincipalByRef(date, invs), RepayByRef(date, repays))
  }

  /** `rc` owns a lot running on `date`. */
  predicate HasActiveLot(date: Date, invs: seq<Investment>, rc: string) {
    exists i :: 0 <= i < |invs| && ActiveOn(invs[i], date) && invs[i].refCode == rc
  }

  /** `rc` has a repayment dated `date`. */
  predicate RepaidThatDay(date: Date, repays: seq<Repayment>, rc: string) {
    exists i :: 0 <= i < |repays| && repays[i].repayDate == Some(date) && repays[i].refCode == rc
  }

  /** One pending row per key of either map, none twice, each with interest
      1.2/365 of the principal and total = interest + repayment. */
  lemma LibRowsFacts(date: Date, p: Tally<string>, r: Tally<string>)
    ensures var rows := LibRows(date, p, r);
            (forall i :: 0 <= i < |rows| ==>
               rows[i].todayInterest == Get0(p, rows[i].refCode) * DAILY_RATE_TOTAL &&
               rows[i].todayRepay == Get0(r, rows[i].refCode) &&
               rows[i].totalAmount == rows[i].todayInterest + rows[i].todayRepay &&
               rows[i].date == date && rows[i].status == "pending") &&
            (forall i, j :: 0 <= i < j < |rows| ==> rows[i].refCode != rows[j].refCode) &&
            (forall rc :: RowFor(rows, rc) <==> Has(p, rc) || Has(r, rc))
  {
    var rows := LibRows(date, p, r);
    var keys := UnionKeys(p, r);
    UnionKeysFacts(p, r);
    forall rc ensures RowFor(rows, rc) <==> Has(p, rc) || Has(r, rc) {
      if Has(p, rc) || Has(r, rc) {
        var i :| 0 <= i < |keys| && keys[i] == rc;
        assert rows[i].refCode == rc;
      }
    }
  }

  /** The column sums are the maps' totals, the interest scaled by the rate. */
  lemma LibRowsSums(date: Date, p: Tally<string>, r: Tally<string>)
    requires Valid(p) && Valid(r)
    ensures SumsOf(LibRows(date, p, r)) ==
            Sums(Total(r), Total(p) * DAILY_RATE_TOTAL, Total(r) + Total(p) * DAILY_RATE_TOTAL)
  {
    var rows := LibRows(date, p, r);
    LibRepaySum(date, p, r);
    LibInterestSum(date, p, r);
    SumLinear(rows, RowInterest, RowRepay, RowTotal);
  }

  lemma LibRepaySum(date: Date, p: Tally<string>, r: Tally<string>)
    requires Valid(r)
    ensures Sum(LibRows(date, p, r), RowRepay) == Total(r)
  {
    var keys := UnionKeys(p, r);
    UnionKeysFacts(p, r);
    SumCorresponding(LibRows(date, p, r), keys, RowRepay, k => Get0(r, k));
    SumOverKeys(keys, r);
  }

  lemma LibInterestSum(date: Date, p: Tally<string>, r: Tally<string>)
    requires Valid(p)
    ensures Sum(LibRows(date, p, r), RowInterest) == Total(p) * DAILY_RATE_TOTAL
  {
    var keys := UnionKeys(p, r);
    UnionKeysFacts(p, r);
    SumCorresponding(LibRows(date, p, r), keys, RowInterest, k => Get0(p, k) * DAILY_RATE_TOTAL);
    SumScale(keys, k => Get0(p, k), k => Get0(p, k) * DAILY_RATE_TOTAL, DAILY_RATE_TOTAL);
    SumOverKeys(keys, p);
  }

  /** The day's rows: one pending row per user who has a running lot or a
      repayment that day, none twice; its interest is 1.2/365 of the user's
      running principal and its repayment the user's repayments of the day. */
  lemma PayoutRowsFacts(date: Date, invs: seq<Investment>, repays: seq<Repayment>)
    ensures var rows := PayoutRows(date, invs, repays);
            (forall i :: 0 <= i < |rows| ==>
               rows[i].todayInterest == Sum(invs, LotPrincipal(date, rows[i].refCode)) * DAILY_RATE_TOTAL &&
               rows[i].todayRepay == Sum(repays, DayRepaid(date, rows[i].refCode)) &&
               rows[i].totalAmount == rows[i].todayInterest + rows[i].todayRepay &&
               rows[i].date == date && rows[i].status == "pending") &&
            (forall i, j :: 0 <= i < j < |rows| ==> rows[i].refCode != rows[j].refCode) &&
            (forall rc :: RowFor(rows, rc) <==> HasActiveLot(date, invs, rc) || RepaidThatDay(date, repays, rc))
  {
    PrincipalByRefFacts(date, invs);
    RepayByRefFacts(date, repays);
    LibRowsFacts(date, PrincipalByRef(date, invs), RepayByRef(date, repays));
  }

  /** The day's repayment sum is every repayment dated that day, and its
      interest sum is 1.2/365 of all running principal. */
  lemma PayoutRowsSums(date: Date, invs: seq<Investment>, repays: seq<Repayment>)
    ensures var rows := PayoutRows(date, invs, repays);
            SumsOf(rows).repaySum == Sum(Filter(repays, RepaidOn(date)), RepAmount) &&
            SumsOf(rows).interestSum == Sum(Filter(invs, ActiveAt(date)), InvPrincipal) * DAILY_RATE_TOTAL &&
            SumsOf(rows).totalSum == SumsOf(rows).repaySum + SumsOf(rows).interestSum
  {
    CollectFacts(Filter(invs, ActiveAt(date)), InvOwner, InvPrincipal);
    CollectFacts(Filter(repays, RepaidOn(date)), RepOwner, RepAmount);
    LibRowsSums(date, PrincipalByRef(date, invs), RepayByRef(date, repays));
  }

  /** `calculateAndSavePayouts(date, commit = true)`: the rows are returned
      either way and stored, keyed (ref_code, transfer_date), only when
      `commit` holds and there are rows. */
  method CalculateAndSavePayouts(date: Date, commit: Option<bool>, invs: seq<Investment>,
                                 repays: seq<Repayment>, transfers: PayoutTable)
    returns (rows: seq<TransferRow>, transfers': PayoutTable)
    ensures rows == PayoutRows(date, invs, repays)
    ensures transfers' == if commit != Some(false) && |rows| > 0
                          then PutAll(transfers, UnnamedWrites(transfers, rows)) else transfers
  {
    var principalByRef := SumPrincipal(date, invs);
    var repayByRef := SumRepaid(date, repays);
    rows := LibRows(date, principalByRef, repayByRef);
    transfers' := transfers;
    if commit != Some(false) && |rows| > 0 {
      transfers' := PutAll(transfers, UnnamedWrites(transfers, rows));
    }
  }

  /** Saving stores each row under its key with the name stored before, leaves
      the other rows alone, and a second save of the same day changes nothing. */
  lemma SaveFacts(date: Date, invs: seq<Investment>, repays: seq<Repayment>, transfers: PayoutTable)
    ensures var rows := PayoutRows(date, invs, repays);
            var t1 := PutAll(transfers, UnnamedWrites(transfers, rows));
            (forall i :: 0 <= i < |rows| ==>
               TransferKeyOf(rows[i]) in t1 && t1[TransferKeyOf(rows[i])] == Unnamed(transfers, rows[i])) &&
            (forall k :: k in transfers && k.date != date ==> k in t1 && t1[k] == transfers[k]) &&
            PutAll(t1, UnnamedWrites(t1, rows)) == t1
  {
    var rows := PayoutRows(date, invs, repays);
    PayoutRowsFacts(date, invs, repays);
    forall k | k in transfers && k.date != date ensures !WritesKey(rows, k) {
    }
    UnnamedUpsertFacts(transfers, rows);
  }

  // ---------------------------------------------------------------------------
  // commitPayouts.

  predicate PendingOn(k: TransferKey, t: PayoutTransfer, date: Date) {
    k.date == date && t.status == Some("pending")
  }

  /** `update({status: "completed"}).eq("transfer_date", date).eq("status",
      "pending")`: the day's pending rows become completed, every other row
      and every other column stays as it was. */
  function CommitPayouts(date: Date, t: PayoutTable): (t': PayoutTable)
    ensures t'.Keys == t.Keys
    ensures forall k :: k in t && PendingOn(k, t[k], date) ==>
              t'[k].status == Some("completed") &&
              t'[k].userName == t[k].userName && t'[k].todayRepay == t[k].todayRepay &&
              t'[k].todayInterest == t[k].todayInterest && t'[k].totalAmount == t[k].totalAmount
    ensures forall k :: k in t && !PendingOn(k, t[k], date) ==> t'[k] == t[k]
  {
    map k | k in t :: if PendingOn(k, t[k], date) then t[k].(status := Some("completed")) else t[k]
  }

  /** After the confirmation no row of the day is pending, and confirming
      again changes nothing. */
  lemma CommitPayoutsFacts(date: Date, t: PayoutTable)
    ensures forall k :: k in CommitPayouts(date, t) ==> !PendingOn(k, CommitPayouts(date, t)[k], date)
    ensures CommitPayouts(date, CommitPayouts(date, t)) == CommitPayouts(date, t)
  {
  }
}
