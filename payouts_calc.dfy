/** The owner-only payout calculation (`/api/admin/payouts/calc`): every lot
    running on the date pays its owner a repayment of P/365 and interest of
    P·0.6/365; nobody else is credited. With `commit` (the default) the rows
    are upserted into payout_transfers; without it the route only reports them. */
module PayoutsCalc {
  import opened Common
  import opened Folds
  import opened Tally
  import opened Store

  const SAMPLE_SIZE: nat := 10

  function LotRepay(inv: Investment): real { inv.amountUsdt / 365.0 }
  function LotInterest(inv: Investment): real { inv.amountUsdt * 0.6 / 365.0 }

  /** `repayByRef`: repayment per owner over the lots running on `date`. */
  function RepayByRef(date: Date, invs: seq<Investment>): Tally<string> {
    Collect(Filter(invs, ActiveAt(date)), InvOwner, LotRepay)
  }

  /** `interestByRef`: interest per owner over the same lots. */
  function InterestByRef(date: Date, invs: seq<Investment>): Tally<string> {
    Collect(Filter(invs, ActiveAt(date)), InvOwner, LotInterest)
  }

  /** The accrual loop. */
  method Accrue(date: Date, invs: seq<Investment>) returns (repayByRef: Tally<string>, interestByRef: Tally<string>)
    ensures repayByRef == RepayByRef(date, invs)
    ensures interestByRef == InterestByRef(date, invs)
  {
    repayByRef, interestByRef := [], [];
    for i := 0 to |invs|
      invariant repayByRef == RepayByRef(date, invs[..i])
      invariant interestByRef == InterestByRef(date, invs[..i])
    {
      var r := invs[i];
      var before := Filter(invs[..i], ActiveAt(date));
      FilterStep(invs, i, ActiveAt(date));
      assert ActiveAt(date)(r) == ActiveOn(r, date);
      if r.investDate.Some? && r.maturityDate.Some? &&
         r.investDate.value <= date && r.maturityDate.value >= date {
        assert Filter(invs[..i + 1], ActiveAt(date)) == before + [r];
        var principal := r.amountUsdt;
        var todayRepay := principal / 365.0;
        var todayInterest := principal * 0.6 / 365.0;
        CollectSnoc(before, r, InvOwner, LotRepay);
        CollectSnoc(before, r, InvOwner, LotInterest);
        assert InvOwner(r) == r.refCode && LotRepay(r) == todayRepay && LotInterest(r) == todayInterest;
        repayByRef := Add(repayByRef, r.refCode, todayRepay);
        interestByRef := Add(interestByRef, r.refCode, todayInterest);
      } else {
        assert Filter(invs[..i + 1], ActiveAt(date)) == before;
      }
    }
    assert invs[..|invs|] == invs;
  }

  function CalcRow(date: Date, rb: Tally<string>, ib: Tally<string>, rc: string): TransferRow {
    var repay, interest := Get0(rb, rc), Get0(ib, rc);
    TransferRow(rc, None, date, repay, interest, repay + interest, "pending")
  }

  /** One row per key of either map, in the order of `allCodes`. */
  function CalcRows(date: Date, rb: Tally<string>, ib: Tally<string>): (rows: seq<TransferRow>)
    ensures |rows| == |UnionKeys(rb, ib)|
    ensures forall i :: 0 <= i < |rows| ==> rows[i] == CalcRow(date, rb, ib, UnionKeys(rb, ib)[i])
  {
    var keys := UnionKeys(rb, ib);
    seq(|keys|, i requires 0 <= i < |keys| => CalcRow(date, rb, ib, keys[i]))
  }

  /** The loop that pushes the rows. */
  method BuildRows(date: Date, rb: Tally<string>, ib: Tally<string>) returns (rows: seq<TransferRow>)
    ensures rows == CalcRows(date, rb, ib)
  {
    var allCodes := UnionKeys(rb, ib);
    rows := [];
    for i := 0 to |allCodes|
      invariant rows == CalcRows(date, rb, ib)[..i]
    {
      var code := allCodes[i];
      var todayRepay := Get0(rb, code);
      var todayInterest := Get0(ib, code);
      rows := rows + [TransferRow(code, None, date, todayRepay, todayInterest, todayRepay + todayInterest, "pending")];
    }
  }

  /** The day's rows for the given lots. */
  function DayRows(date: Date, invs: seq<Investment>): seq<TransferRow> {
    CalcRows(date, RepayByRef(date, invs), InterestByRef(date, invs))
  }

  /** Interest is credited to owners only, 0.6 of each repayment. */
  lemma {:induction false} InterestIsSixTenths(rows: seq<Investment>, rc: string)
    ensures Get0(Collect(rows, InvOwner, LotInterest), rc) == 0.6 * Get0(Collect(rows, InvOwner, LotRepay), rc)
    ensures Has(Collect(rows, InvOwner, LotInterest), rc) <==> Has(Collect(rows, InvOwner, LotRepay), rc)
  {
    if |rows| > 0 {
      var init, last := rows[..|rows| - 1], rows[|rows| - 1];
      InterestIsSixTenths(init, rc);
      AddGet(Collect(init, InvOwner, LotInterest), InvOwner(last), LotInterest(last), rc);
      AddGet(Collect(init, InvOwner, LotRepay), InvOwner(last), LotRepay(last), rc);
      AddHas(Collect(init, InvOwner, LotInterest), InvOwner(last), LotInterest(last), rc);
      AddHas(Collect(init, InvOwner, LotRepay), InvOwner(last), LotRepay(last), rc);
    }
  }

  /** One pending row per owner of a running lot, none twice; its repayment is
      P/365 summed over the owner's running lots, its interest is 0.6 of that,
      and its total the two together. */
  lemma DayRowsFacts(date: Date, invs: seq<Investment>)
    ensures var rows := DayRows(date, invs);
            (forall i :: 0 <= i < |rows| ==>
               rows[i].todayRepay == Sum(Filter(invs, ActiveAt(date)), Where(InvOwner, LotRepay, rows[i].refCode)) &&
               rows[i].todayInterest == 0.6 * rows[i].todayRepay &&
               rows[i].totalAmount == rows[i].todayRepay + rows[i].todayInterest &&
               rows[i].date == date && rows[i].status == "pending" && rows[i].userName == None) &&
            (forall i, j :: 0 <= i < j < |rows| ==> rows[i].refCode != rows[j].refCode) &&
            (forall rc :: RowFor(rows, rc) <==> Has(RepayByRef(date, invs), rc))
  {
    var act := Filter(invs, ActiveAt(date));
    var rb, ib := RepayByRef(date, invs), InterestByRef(date, invs);
    var rows := DayRows(date, invs);
    var keys := UnionKeys(rb, ib);
    CollectFacts(act, InvOwner, LotRepay);
    UnionKeysFacts(rb, ib);
    forall rc ensures Get0(ib, rc) == 0.6 * Get0(rb, rc) && (Has(ib, rc) <==> Has(rb, rc)) {
      InterestIsSixTenths(act, rc);
    }
    forall rc ensures RowFor(rows, rc) <==> Has(rb, rc) {
      if Has(rb, rc) {
        var i :| 0 <= i < |keys| && keys[i] == rc;
        assert rows[i].refCode == rc;
      }
    }
  }

  /** The reported sums: repayments add up to Σ P/365 over the running lots,
      interest to 0.6 of that, and the total to both. */
  lemma DayRowsSums(date: Date, invs: seq<Investment>)
    ensures var s := SumsOf(DayRows(date, invs));
            s.repaySum == Sum(Filter(invs, ActiveAt(date)), LotRepay) &&
            s.interestSum == Sum(Filter(invs, ActiveAt(date)), LotInterest) &&
            s.totalSum == s.repaySum + s.interestSum
  {
    var act := Filter(invs, ActiveAt(date));
    var rb, ib := RepayByRef(date, invs), InterestByRef(date, invs);
    var rows := DayRows(date, invs);
    var keys := UnionKeys(rb, ib);
    CollectFacts(act, InvOwner, LotRepay);
    CollectFacts(act, InvOwner, LotInterest);
    UnionKeysFacts(rb, ib);
    SumCorresponding(rows, keys, RowRepay, k => Get0(rb, k));
    SumOverKeys(keys, rb);
    SumCorresponding(rows, keys, RowInterest, k => Get0(ib, k));
    SumOverKeys(keys, ib);
    SumLinear(rows, RowRepay, RowInterest, RowTotal);
  }

  datatype CalcResponse =
    | Reported(count: nat, sums: Sums, sample: seq<TransferRow>)
    | Upserted(upserted: nat)

  /** `POST /api/admin/payouts/calc` with body `{ date, commit = true }`. */
  method Post(dateText: string, commit: Option<bool>, invs: seq<Investment>, transfers: PayoutTable)
    returns (result: Result<CalcResponse>, transfers': PayoutTable)
    ensures !IsIsoDate(dateText) ==> result.Err? && result.status == 400 && transfers' == transfers
    ensures IsIsoDate(dateText) && commit == Some(false) ==>
              var rows := DayRows(DateOf(dateText), invs);
              transfers' == transfers &&
              result == Ok(Reported(|rows|, SumsOf(rows), rows[..if |rows| < SAMPLE_SIZE then |rows| else SAMPLE_SIZE]))
    ensures IsIsoDate(dateText) && commit != Some(false) ==>
              var rows := DayRows(DateOf(dateText), invs);
              result == Ok(Upserted(|rows|)) &&
              transfers' == (if |rows| > 0 then PutAll(transfers, UnnamedWrites(transfers, rows)) else transfers)
  {
    if !IsIsoDate(dateText) {
      return Err(400, "date(YYYY-MM-DD) 필요"), transfers;
    }
    var date := DateOf(dateText);
    var repayByRef, interestByRef := Accrue(date, invs);
    var rows := BuildRows(date, repayByRef, interestByRef);
    transfers' := transfers;
    if commit == Some(false) {
      var n := if |rows| < SAMPLE_SIZE then |rows| else SAMPLE_SIZE;
      return Ok(Reported(|rows|, SumsOf(rows), rows[..n])), transfers;
    }
    if |rows| > 0 {
      transfers' := PutAll(transfers, UnnamedWrites(transfers, rows));
    }
    result := Ok(Upserted(|rows|));
  }

  /** The sample is the first rows, at most ten of them. */
  lemma SampleFacts(dateText: string, invs: seq<Investment>, transfers: PayoutTable, sample: seq<TransferRow>)
    requires IsIsoDate(dateText)
    requires var rows := DayRows(DateOf(dateText), invs);
             sample == rows[..if |rows| < SAMPLE_SIZE then |rows| else SAMPLE_SIZE]
    ensures |sample| <= 10
    ensures sample <= DayRows(DateOf(dateText), invs)
    ensures |DayRows(DateOf(dateText), invs)| <= 10 ==> sample == DayRows(DateOf(dateText), invs)
  {
  }

  /** Committing stores each owner's row under (ref_code, date), leaves other
      days alone, and committing the same day again changes nothing. */
  lemma CommitFacts(date: Date, invs: seq<Investment>, transfers: PayoutTable)
    ensures var rows := DayRows(date, invs);
            var t1 := PutAll(transfers, UnnamedWrites(transfers, rows));
            (forall i :: 0 <= i < |rows| ==>
               TransferKeyOf(rows[i]) in t1 && t1[TransferKeyOf(rows[i])] == Unnamed(transfers, rows[i])) &&
            (forall k :: k in transfers && k.date != date ==> k in t1 && t1[k] == transfers[k]) &&
            PutAll(t1, UnnamedWrites(t1, rows)) == t1
  {
    var rows := DayRows(date, invs);
    DayRowsFacts(date, invs);
    forall k | k in transfers && k.date != date ensures !WritesKey(rows, k) {
    }
    UnnamedUpsertFacts(transfers, rows);
  }
}
