/** The admin payout route (`/api/admin/payouts`). POST accrues, for every
    principal lot running on the date, a repayment of 1/365 of the principal and
    three interest streams (the owner's 60%, the inviter's 12% and the center's
    24% a year), then folds them into one row per recipient: with `commit`
    unset it stores the per-lot rows in daily_aggregates and previews the
    recipients' rows; with `commit` set it re-reads the day's stored per-lot
    rows and inserts the recipients' rows into payout_transfers. GET lists a
    day's payout rows with their sums. */
module PayoutsRoute {
  import opened Common
  import opened Folds
  import opened Tally
  import opened Store

  /** Annual rates, in percent. */
  const SELF_RATE: real := 60.0
  const INV_RATE: real := 12.0
  const CTR_RATE: real := 24.0

  /** A row of daily_aggregates: one lot's accrual on one day. */
  datatype AggRow = AggRow(
    aggDate: Date,
    investmentId: string,
    refCode: string,
    investAmount: real,
    todayRepay: real,
    selfInterest: real,
    inviterCode: Option<string>,
    inviterInterest: real,
    centerCode: Option<string>,
    centerInterest: real,
    status: string)

  /** daily_aggregates, unique on (agg_date, investment_id). */
  type AggTable = map<(Date, string), AggRow>

  datatype PayoutState = PayoutState(aggregates: AggTable, transfers: PayoutTable)

  datatype PostResponse =
    | Previewed(inserted: nat, preview: seq<TransferRow>, sums: Sums)
    | Committed(inserted: nat, sums: Sums)

  datatype GetResponse = Listed(rows: seq<TransferRow>, sums: Sums)

  // ---------------------------------------------------------------------------
  // Per-lot accrual.

  /** A lot pays on `date` when it is running then and its principal is
      positive. */
  predicate Contributes(inv: Investment, date: Date) {
    ActiveOn(inv, date) && inv.amountUsdt > 0.0
  }

  /** `refByMap.get(owner) ?? null`. */
  function InviterOf(dir: map<string, UserRow>, rc: string): Option<string> {
    if rc in dir then dir[rc].refBy else None
  }

  /** `centerMap.get(owner) ?? null`. */
  function CenterOf(dir: map<string, UserRow>, rc: string): Option<string> {
    if rc in dir then dir[rc].centerId else None
  }

  /** The daily_aggregates row of one paying lot. */
  function LotRow(date: Date, inv: Investment, dir: map<string, UserRow>): AggRow {
    var p := inv.amountUsdt;
    var inviter := InviterOf(dir, inv.refCode);
    var center := CenterOf(dir, inv.refCode);
    AggRow(date, inv.id, inv.refCode, p,
           p / 365.0,
           p * (SELF_RATE / 100.0) / 365.0,
           inviter, if Truthy(inviter) then p * (INV_RATE / 100.0) / 365.0 else 0.0,
           center, if Truthy(center) then p * (CTR_RATE / 100.0) / 365.0 else 0.0,
           "pending")
  }

  /** `rawRows`: one row per paying lot, in the order of the lots. */
  function RawRows(date: Date, invs: seq<Investment>, dir: map<string, UserRow>): seq<AggRow> {
    if |invs| == 0 then []
    else
      var last := invs[|invs| - 1];
      RawRows(date, invs[..|invs| - 1], dir) + (if Contributes(last, date) then [LotRow(date, last, dir)] else [])
  }

  lemma RawRowsStep(date: Date, invs: seq<Investment>, i: nat, dir: map<string, UserRow>)
    requires i < |invs|
    ensures RawRows(date, invs[..i + 1], dir) ==
            RawRows(date, invs[..i], dir) + (if Contributes(invs[i], date) then [LotRow(date, invs[i], dir)] else [])
  {
    assert invs[..i + 1][..i] == invs[..i];
  }

  /** Each lot's share: a repayment of P/365; the owner's interest P·0.60/365;
      the inviter's P·0.12/365 and the center's P·0.24/365, each recorded as 0
      when the owner has no inviter or no center. */
  lemma LotShares(date: Date, inv: Investment, dir: map<string, UserRow>)
    ensures var r, p := LotRow(date, inv, dir), inv.amountUsdt;
            r.todayRepay * 365.0 == p &&
            r.selfInterest * 365.0 == p * 0.6 &&
            r.inviterInterest * 365.0 == (if Truthy(InviterOf(dir, inv.refCode)) then p * 0.12 else 0.0) &&
            r.centerInterest * 365.0 == (if Truthy(CenterOf(dir, inv.refCode)) then p * 0.24 else 0.0) &&
            r.aggDate == date && r.refCode == inv.refCode && r.investmentId == inv.id && r.status == "pending"
  {
  }

  /** rawRows holds exactly the rows of the paying lots. */
  lemma {:induction false} RawRowsFacts(date: Date, invs: seq<Investment>, dir: map<string, UserRow>)
    ensures forall r :: r in RawRows(date, invs, dir) <==>
              exists i :: 0 <= i < |invs| && Contributes(invs[i], date) && r == LotRow(date, invs[i], dir)
  {
    if |invs| > 0 {
      var init := invs[..|invs| - 1];
      RawRowsFacts(date, init, dir);
      forall r ensures r in RawRows(date, invs, dir) <==>
                       exists i :: 0 <= i < |invs| && Contributes(invs[i], date) && r == LotRow(date, invs[i], dir)
      {
        if r in RawRows(date, init, dir) {
          var i :| 0 <= i < |init| && Contributes(init[i], date) && r == LotRow(date, init[i], dir);
          assert invs[i] == init[i];
        }
        if exists i :: 0 <= i < |invs| && Contributes(invs[i], date) && r == LotRow(date, invs[i], dir) {
          var i :| 0 <= i < |invs| && Contributes(invs[i], date) && r == LotRow(date, invs[i], dir);
          if i < |init| {
            assert init[i] == invs[i];
          }
        }
      }
    }
  }

  // ---------------------------------------------------------------------------
  // Fan-in to recipients: the owner gets the repayment and the owner's
  // interest, the inviter only the inviter's interest, the center only the
  // center's interest.

  function Owner(r: AggRow): string { r.refCode }
  function Repay(r: AggRow): real { r.todayRepay }
  function CreditKey(c: (string, real)): string { c.0 }
  function CreditAmount(c: (string, real)): real { c.1 }

  /** The interest credits one row hands out. */
  function Credits(r: AggRow): seq<(string, real)> {
    [(r.refCode, r.selfInterest)] +
    (if Truthy(r.inviterCode) then [(r.inviterCode.value, r.inviterInterest)] else []) +
    (if Truthy(r.centerCode) then [(r.centerCode.value, r.centerInterest)] else [])
  }

  function AllCredits(rows: seq<AggRow>): seq<(string, real)> {
    if |rows| == 0 then [] else AllCredits(rows[..|rows| - 1]) + Credits(rows[|rows| - 1])
  }

  /** `repayBy`: the repayment per owner. */
  function RepayBy(rows: seq<AggRow>): Tally<string> {
    Collect(rows, Owner, Repay)
  }

  /** `interestBy`: the interest per recipient. */
  function InterestBy(rows: seq<AggRow>): Tally<string> {
    Collect(AllCredits(rows), CreditKey, CreditAmount)
  }

  /** The three conditional `interestBy.set` calls for one row. */
  function AddCreditsOf(t: Tally<string>, r: AggRow): Tally<string> {
    var t1 := Add(t, r.refCode, r.selfInterest);
    var t2 := if Truthy(r.inviterCode) then Add(t1, r.inviterCode.value, r.inviterInterest) else t1;
    if Truthy(r.centerCode) then Add(t2, r.centerCode.value, r.centerInterest) else t2
  }

  /** The interest of row `r` owed to recipient `rc`. */
  function InterestShare(r: AggRow, rc: string): real {
    (if r.refCode == rc then r.selfInterest else 0.0) +
    (if Truthy(r.inviterCode) && r.inviterCode.value == rc then r.inviterInterest else 0.0) +
    (if Truthy(r.centerCode) && r.centerCode.value == rc then r.centerInterest else 0.0)
  }

  function ShareOf(rc: string): AggRow -> real {
    r => InterestShare(r, rc)
  }

  /** All the interest row `r` hands out. */
  function Credited(r: AggRow): real {
    r.selfInterest +
    (if Truthy(r.inviterCode) then r.inviterInterest else 0.0) +
    (if Truthy(r.centerCode) then r.centerInterest else 0.0)
  }

  predicate ReceivesInterest(r: AggRow, rc: string) {
    r.refCode == rc || (Truthy(r.inviterCode) && r.inviterCode.value == rc) ||
    (Truthy(r.centerCode) && r.centerCode.value == rc)
  }

  lemma RepayByStep(rows: seq<AggRow>, r: AggRow)
    ensures RepayBy(rows + [r]) == Add(RepayBy(rows), r.refCode, r.todayRepay)
  {
    assert (rows + [r])[..|rows|] == rows;
  }

  lemma InterestByStep(rows: seq<AggRow>, r: AggRow)
    ensures InterestBy(rows + [r]) == AddCreditsOf(InterestBy(rows), r)
  {
    assert (rows + [r])[..|rows|] == rows;
    assert AllCredits(rows + [r]) == AllCredits(rows) + Credits(r);
    CollectAppend(AllCredits(rows), Credits(r), CreditKey, CreditAmount);
    AddAllCredits(InterestBy(rows), r);
  }

  /** Adding one row's credits in order is the three conditional updates. */
  lemma AddAllCredits(t: Tally<string>, r: AggRow)
    ensures AddAll(t, Credits(r), CreditKey, CreditAmount) == AddCreditsOf(t, r)
  {
    var a := [(r.refCode, r.selfInterest)];
    var b := if Truthy(r.inviterCode) then [(r.inviterCode.value, r.inviterInterest)] else [];
    var d := if Truthy(r.centerCode) then [(r.centerCode.value, r.centerInterest)] else [];
    var t1 := Add(t, r.refCode, r.selfInterest);
    assert AddAll(t, a, CreditKey, CreditAmount) == t1 by {
      assert a[..0] == [];
    }
    var t2 := if Truthy(r.inviterCode) then Add(t1, r.inviterCode.value, r.inviterInterest) else t1;
    assert AddAll(t, a + b, CreditKey, CreditAmount) == t2 by {
      if b != [] {
        assert (a + b)[..1] == a;
      } else {
        assert a + b == a;
      }
    }
    assert Credits(r) == a + b + d;
    if d != [] {
      assert (a + b + d)[..|a + b|] == a + b;
    } else {
      assert a + b + d == a + b;
    }
  }

  lemma {:induction false} CreditsSumTo(rows: seq<AggRow>, rc: string)
    ensures Sum(AllCredits(rows), Where(CreditKey, CreditAmount, rc)) ==
            Sum(rows, ShareOf(rc))
    ensures Sum(AllCredits(rows), CreditAmount) == Sum(rows, Credited)
  {
    if |rows| > 0 {
      var init, r := rows[..|rows| - 1], rows[|rows| - 1];
      CreditsSumTo(init, rc);
      var f := Where(CreditKey, CreditAmount, rc);
      SumAppend(AllCredits(init), Credits(r), f);
      SumAppend(AllCredits(init), Credits(r), CreditAmount);
      var a := [(r.refCode, r.selfInterest)];
      var b := if Truthy(r.inviterCode) then [(r.inviterCode.value, r.inviterInterest)] else [];
      var d := if Truthy(r.centerCode) then [(r.centerCode.value, r.centerInterest)] else [];
      SumAppend(a + b, d, f);
      SumAppend(a, b, f);
      SumAppend(a + b, d, CreditAmount);
      SumAppend(a, b, CreditAmount);
      assert a[..0] == [];
      if b != [] { assert b[..0] == []; }
      if d != [] { assert d[..0] == []; }
    }
  }

  lemma {:induction false} CreditsReach(rows: seq<AggRow>, rc: string)
    ensures (exists j :: 0 <= j < |AllCredits(rows)| && CreditKey(AllCredits(rows)[j]) == rc) <==>
            (exists i :: 0 <= i < |rows| && ReceivesInterest(rows[i], rc))
  {
    if |rows| > 0 {
      var init, r := rows[..|rows| - 1], rows[|rows| - 1];
      CreditsReach(init, rc);
      var ci, cr := AllCredits(init), Credits(r);
      assert AllCredits(rows) == ci + cr;
      if exists j :: 0 <= j < |ci + cr| && CreditKey((ci + cr)[j]) == rc {
        var j :| 0 <= j < |ci + cr| && CreditKey((ci + cr)[j]) == rc;
        if j < |ci| {
          assert CreditKey(ci[j]) == rc;
          var i :| 0 <= i < |init| && ReceivesInterest(init[i], rc);
          assert rows[i] == init[i];
        } else {
          assert cr[j - |ci|] == (ci + cr)[j];
          assert ReceivesInterest(rows[|rows| - 1], rc);
        }
      }
      if exists i :: 0 <= i < |rows| && ReceivesInterest(rows[i], rc) {
        var i :| 0 <= i < |rows| && ReceivesInterest(rows[i], rc);
        if i < |init| {
          assert init[i] == rows[i];
          var j :| 0 <= j < |ci| && CreditKey(ci[j]) == rc;
          assert (ci + cr)[j] == ci[j];
        } else {
          var k := if r.refCode == rc then 0
                   else if Truthy(r.inviterCode) && r.inviterCode.value == rc then 1
                   else |cr| - 1;
          assert CreditKey(cr[k]) == rc;
          assert (ci + cr)[|ci| + k] == cr[k];
        }
      }
    }
  }

  /** Some row credits interest to `rc`. */
  predicate Owed(rows: seq<AggRow>, rc: string) {
    exists i :: 0 <= i < |rows| && ReceivesInterest(rows[i], rc)
  }

  /** Some row is owned by `rc`. */
  predicate Owns(rows: seq<AggRow>, rc: string) {
    exists i :: 0 <= i < |rows| && rows[i].refCode == rc
  }

  /** The repayment fan-in: each owner receives exactly its rows' repayments,
      nothing is lost, and an owner gets an entry iff it owns a row. */
  lemma RepayByFacts(rows: seq<AggRow>)
    ensures Valid(RepayBy(rows))
    ensures forall rc :: Get0(RepayBy(rows), rc) == Sum(rows, Where(Owner, Repay, rc))
    ensures Total(RepayBy(rows)) == Sum(rows, Repay)
    ensures forall rc :: Has(RepayBy(rows), rc) <==> Owns(rows, rc)
  {
    CollectFacts(rows, Owner, Repay);
  }

  /** The interest fan-in: each recipient receives exactly its share of every
      row, the total is everything the rows hand out, and a ref gets an entry
      iff some row credits it. */
  lemma InterestByFacts(rows: seq<AggRow>)
    ensures Valid(InterestBy(rows))
    ensures forall rc :: Get0(InterestBy(rows), rc) == Sum(rows, ShareOf(rc))
    ensures Total(InterestBy(rows)) == Sum(rows, Credited)
    ensures forall rc :: Has(InterestBy(rows), rc) <==> Owed(rows, rc)
  {
    CollectFacts(AllCredits(rows), CreditKey, CreditAmount);
    forall rc ensures Get0(InterestBy(rows), rc) == Sum(rows, ShareOf(rc)) {
      CreditsSumTo(rows, rc);
    }
    CreditsSumTo(rows, "");
    forall rc ensures Has(InterestBy(rows), rc) <==> Owed(rows, rc) {
      CreditsReach(rows, rc);
    }
  }

  /** The POST loop over the lots: build `rawRows` and fan them in. */
  method Accrue(date: Date, invs: seq<Investment>, dir: map<string, UserRow>)
    returns (rawRows: seq<AggRow>, repayByRc: Tally<string>, interestByRc: Tally<string>)
    ensures rawRows == RawRows(date, invs, dir)
    ensures repayByRc == RepayBy(rawRows)
    ensures interestByRc == InterestBy(rawRows)
  {
    rawRows, repayByRc, interestByRc := [], [], [];
    for i := 0 to |invs|
      invariant rawRows == RawRows(date, invs[..i], dir)
      invariant repayByRc == RepayBy(rawRows)
      invariant interestByRc == InterestBy(rawRows)
    {
      var r := invs[i];
      RawRowsStep(date, invs, i, dir);
      if r.investDate.None? || r.maturityDate.None? {
        continue;
      }
      if !(r.investDate.value <= date && date <= r.maturityDate.value) {
        continue;
      }
      var owner := r.refCode;
      var principal := r.amountUsdt;
      if principal <= 0.0 {
        continue;
      }
      var repay := principal / 365.0;
      var selfI := principal * (SELF_RATE / 100.0) / 365.0;
      var invI := principal * (INV_RATE / 100.0) / 365.0;
      var ctrI := principal * (CTR_RATE / 100.0) / 365.0;
      var inviter := InviterOf(dir, owner);
      var center := CenterOf(dir, owner);
      var row := AggRow(date, r.id, owner, principal, repay, selfI,
                        inviter, if Truthy(inviter) then invI else 0.0,
                        center, if Truthy(center) then ctrI else 0.0, "pending");
      assert Contributes(r, date) && row == LotRow(date, r, dir);
      RepayByStep(rawRows, row);
      InterestByStep(rawRows, row);
      rawRows := rawRows + [row];
      repayByRc := Add(repayByRc, owner, repay);
      interestByRc := Add(interestByRc, owner, selfI);
      if Truthy(inviter) {
        interestByRc := Add(interestByRc, inviter.value, invI);
      }
      if Truthy(center) {
        interestByRc := Add(interestByRc, center.value, ctrI);
      }
    }
    assert invs[..|invs|] == invs;
  }

  /** The commit loop over the day's stored rows. */
  method FanIn(aggRows: seq<AggRow>) returns (repayBy: Tally<string>, interestBy: Tally<string>)
    ensures repayBy == RepayBy(aggRows)
    ensures interestBy == InterestBy(aggRows)
  {
    repayBy, interestBy := [], [];
    for i := 0 to |aggRows|
      invariant repayBy == RepayBy(aggRows[..i])
      invariant interestBy == InterestBy(aggRows[..i])
    {
      var r := aggRows[i];
      assert aggRows[..i + 1] == aggRows[..i] + [r];
      RepayByStep(aggRows[..i], r);
      InterestByStep(aggRows[..i], r);
      var owner := r.refCode;
      repayBy := Add(repayBy, owner, r.todayRepay);
      interestBy := Add(interestBy, owner, r.selfInterest);
      if Truthy(r.inviterCode) {
        interestBy := Add(interestBy, r.inviterCode.value, r.inviterInterest);
      }
      if Truthy(r.centerCode) {
        interestBy := Add(interestBy, r.centerCode.value, r.centerInterest);
      }
    }
    assert aggRows[..|aggRows|] == aggRows;
  }

  // ---------------------------------------------------------------------------
  // One row per recipient.

  function RecipientRow(date: Date, dir: map<string, UserRow>, rb: Tally<string>, ib: Tally<string>, rc: string): TransferRow {
    var repay, interest := Get0(rb, rc), Get0(ib, rc);
    TransferRow(rc, NameOf(dir, rc), date, repay, interest, repay + interest, "pending")
  }

  /** `Array.from(recipients).map(...)` over the union of both maps' keys. */
  function RecipientRows(date: Date, dir: map<string, UserRow>, rb: Tally<string>, ib: Tally<string>): (rows: seq<TransferRow>)
    ensures |rows| == |UnionKeys(rb, ib)|
    ensures forall i :: 0 <= i < |rows| ==> rows[i] == RecipientRow(date, dir, rb, ib, UnionKeys(rb, ib)[i])
  {
    var keys := UnionKeys(rb, ib);
    seq(|keys|, i requires 0 <= i < |keys| => RecipientRow(date, dir, rb, ib, keys[i]))
  }

  /** One pending row per recipient, none twice, each with total = repayment +
      interest, and the column sums are the maps' totals. */
  lemma RecipientRowsFacts(date: Date, dir: map<string, UserRow>, rb: Tally<string>, ib: Tally<string>)
    requires Valid(rb) && Valid(ib)
    ensures var rows := RecipientRows(date, dir, rb, ib);
            (forall i :: 0 <= i < |rows| ==>
               rows[i].totalAmount == rows[i].todayRepay + rows[i].todayInterest &&
               rows[i].todayRepay == Get0(rb, rows[i].refCode) &&
               rows[i].todayInterest == Get0(ib, rows[i].refCode) &&
               rows[i].userName == NameOf(dir, rows[i].refCode) &&
               rows[i].date == date && rows[i].status == "pending") &&
            (forall i, j :: 0 <= i < j < |rows| ==> rows[i].refCode != rows[j].refCode) &&
            (forall rc :: RowFor(rows, rc) <==> Has(rb, rc) || Has(ib, rc)) &&
            SumsOf(rows) == Sums(Total(rb), Total(ib), Total(rb) + Total(ib))
  {
    var rows := RecipientRows(date, dir, rb, ib);
    var keys := UnionKeys(rb, ib);
    UnionKeysFacts(rb, ib);
    forall rc ensures RowFor(rows, rc) <==> Has(rb, rc) || Has(ib, rc) {
      if Has(rb, rc) || Has(ib, rc) {
        var i :| 0 <= i < |keys| && keys[i] == rc;
        assert rows[i].refCode == rc;
      }
    }
    SumCorresponding(rows, keys, RowRepay, k => Get0(rb, k));
    SumCorresponding(rows, keys, RowInterest, k => Get0(ib, k));
    SumOverKeys(keys, rb);
    SumOverKeys(keys, ib);
    SumsBalanced(rows);
  }

  // ---------------------------------------------------------------------------
  // The two POST outcomes.

  /** The daily_aggregates upsert batch, keyed (agg_date, investment_id). */
  function AggWrites(rows: seq<AggRow>): (w: seq<((Date, string), AggRow)>)
    ensures |w| == |rows|
  {
    seq(|rows|, i requires 0 <= i < |rows| => ((rows[i].aggDate, rows[i].investmentId), rows[i]))
  }

  /** commit unset: store the per-lot rows, preview the recipients' rows. */
  function PreviewRun(date: Date, users: seq<UserRow>, invs: seq<Investment>, st: PayoutState)
    : (Result<PostResponse>, PayoutState)
  {
    var dir := Directory(users);
    var raw := RawRows(date, invs, dir);
    var preview := RecipientRows(date, dir, RepayBy(raw), InterestBy(raw));
    (Ok(Previewed(|raw|, preview, SumsOf(preview))),
     st.(aggregates := PutAll(st.aggregates, AggWrites(raw))))
  }

  /** commit set: fan in the day's stored rows and insert one pending payout
      row per recipient. The insert is not an upsert: if any of the rows is
      already stored, the store refuses the whole batch. */
  function CommitRun(date: Date, users: seq<UserRow>, aggRows: seq<AggRow>, st: PayoutState)
    : (Result<PostResponse>, PayoutState)
  {
    var dir := Directory(users);
    var inserts := RecipientRows(date, dir, RepayBy(aggRows), InterestBy(aggRows));
    if exists i :: 0 <= i < |inserts| && TransferKeyOf(inserts[i]) in st.transfers then
      (Err(500, "duplicate key value violates unique constraint"), st)
    else
      (Ok(Committed(|inserts|, SumsOf(inserts))),
       st.(transfers := PutAll(st.transfers, TransferWrites(inserts))))
  }

  /** Rows of `aggs` keyed `ks` are the day's rows, each once. */
  ghost predicate DayKeys(aggs: AggTable, date: Date, ks: seq<(Date, string)>) {
    (forall k :: k in ks <==> k in aggs && k.0 == date) &&
    (forall i, j :: 0 <= i < j < |ks| ==> ks[i] != ks[j])
  }

  function RowsAt(aggs: AggTable, ks: seq<(Date, string)>): seq<AggRow>
    requires forall k :: k in ks ==> k in aggs
  {
    seq(|ks|, i requires 0 <= i < |ks| => aggs[ks[i]])
  }

  /** `select(...).eq("agg_date", date)`, in an order the store chooses. */
  method SelectAggDay(aggs: AggTable, date: Date) returns (ks: seq<(Date, string)>, rows: seq<AggRow>)
    ensures DayKeys(aggs, date, ks)
    ensures forall k :: k in ks ==> k in aggs
    ensures rows == RowsAt(aggs, ks)
  {
    ks := Enumerate(set k | k in aggs && k.0 == date);
    rows := RowsAt(aggs, ks);
  }

  /** `POST /api/admin/payouts` with body `{ date, commit = false }`. */
  method Post(dateText: string, commit: Option<bool>, users: seq<UserRow>, invs: seq<Investment>, st: PayoutState)
    returns (result: Result<PostResponse>, st': PayoutState)
    ensures !IsIsoDate(dateText) ==> result.Err? && result.status == 400 && st' == st
    ensures IsIsoDate(dateText) && commit != Some(true) ==>
              (result, st') == PreviewRun(DateOf(dateText), users, invs, st)
    ensures IsIsoDate(dateText) && commit == Some(true) ==>
              exists ks :: DayKeys(st.aggregates, DateOf(dateText), ks) &&
                (forall k :: k in ks ==> k in st.aggregates) &&
                (result, st') == CommitRun(DateOf(dateText), users, RowsAt(st.aggregates, ks), st)
  {
    if !IsIsoDate(dateText) {
      return Err(400, "date(YYYY-MM-DD) 필요"), st;
    }
    var date := DateOf(dateText);
    var dir := Directory(users);
    var rawRows, repayByRc, interestByRc := Accrue(date, invs, dir);
    if commit != Some(true) {
      st' := st;
      if |rawRows| > 0 {
        st' := st.(aggregates := PutAll(st.aggregates, AggWrites(rawRows)));
      }
      var preview := RecipientRows(date, dir, repayByRc, interestByRc);
      result := Ok(Previewed(|rawRows|, preview, SumsOf(preview)));
      return;
    }
    var ks, aggRows := SelectAggDay(st.aggregates, date);
    var repayBy, interestBy := FanIn(aggRows);
    var inserts := RecipientRows(date, dir, repayBy, interestBy);
    st' := st;
    if |inserts| > 0 {
      if exists i :: 0 <= i < |inserts| && TransferKeyOf(inserts[i]) in st.transfers {
        return Err(500, "duplicate key value violates unique constraint"), st;
      }
      st' := st.(transfers := PutAll(st.transfers, TransferWrites(inserts)));
    }
    result := Ok(Committed(|inserts|, SumsOf(inserts)));
  }

  // ---------------------------------------------------------------------------
  // What the outcomes promise.

  /** Σ over paying lots of P/365. */
  function LotsRepay(date: Date, invs: seq<Investment>): real {
    if |invs| == 0 then 0.0
    else
      var last := invs[|invs| - 1];
      LotsRepay(date, invs[..|invs| - 1]) + (if Contributes(last, date) then last.amountUsdt / 365.0 else 0.0)
  }

  /** Σ over paying lots of the interest they hand out: the owner's share
      always, the inviter's and the center's only when there is one. */
  function LotsInterest(date: Date, invs: seq<Investment>, dir: map<string, UserRow>): real {
    if |invs| == 0 then 0.0
    else
      var last := invs[|invs| - 1];
      var p := last.amountUsdt;
      LotsInterest(date, invs[..|invs| - 1], dir) +
      (if Contributes(last, date) then
         p * 0.6 / 365.0 +
         (if Truthy(InviterOf(dir, last.refCode)) then p * 0.12 / 365.0 else 0.0) +
         (if Truthy(CenterOf(dir, last.refCode)) then p * 0.24 / 365.0 else 0.0)
       else 0.0)
  }

  lemma {:induction false} RawRowsSums(date: Date, invs: seq<Investment>, dir: map<string, UserRow>)
    ensures Sum(RawRows(date, invs, dir), Repay) == LotsRepay(date, invs)
    ensures Sum(RawRows(date, invs, dir), Credited) == LotsInterest(date, invs, dir)
  {
    if |invs| > 0 {
      var init, last := invs[..|invs| - 1], invs[|invs| - 1];
      RawRowsSums(date, init, dir);
      var tail := if Contributes(last, date) then [LotRow(date, last, dir)] else [];
      SumAppend(RawRows(date, init, dir), tail, Repay);
      SumAppend(RawRows(date, init, dir), tail, Credited);
      if tail != [] {
        assert tail[..0] == [];
      }
    }
  }

  /** The preview conserves money: its repayment sum is Σ P/365 over the paying
      lots, its interest sum is everything the lots hand out, and its total sum
      is the two together. */
  lemma PreviewConservation(date: Date, users: seq<UserRow>, invs: seq<Investment>, st: PayoutState)
    ensures var (res, _) := PreviewRun(date, users, invs, st);
            res.Ok? && res.value.Previewed? &&
            res.value.sums.repaySum == LotsRepay(date, invs) &&
            res.value.sums.interestSum == LotsInterest(date, invs, Directory(users)) &&
            res.value.sums.totalSum == res.value.sums.repaySum + res.value.sums.interestSum
  {
    var dir := Directory(users);
    var raw := RawRows(date, invs, dir);
    RepayByFacts(raw);
    InterestByFacts(raw);
    RecipientRowsFacts(date, dir, RepayBy(raw), InterestBy(raw));
    RawRowsSums(date, invs, dir);
  }

  /** A recipient's preview row carries its own repayments and the interest
      every row credits to it, and nobody appears who is owed nothing. */
  lemma PreviewRecipients(date: Date, users: seq<UserRow>, invs: seq<Investment>, st: PayoutState)
    ensures var (res, _) := PreviewRun(date, users, invs, st);
            var raw := RawRows(date, invs, Directory(users));
            res.Ok? && res.value.Previewed? &&
            (forall i :: 0 <= i < |res.value.preview| ==>
               var row := res.value.preview[i];
               row.todayRepay == Sum(raw, Where(Owner, Repay, row.refCode)) &&
               row.todayInterest == Sum(raw, ShareOf(row.refCode)) &&
               row.totalAmount == row.todayRepay + row.todayInterest) &&
            (forall rc :: RowFor(res.value.preview, rc) <==> Owed(raw, rc))
  {
    var dir := Directory(users);
    var raw := RawRows(date, invs, dir);
    RepayByFacts(raw);
    InterestByFacts(raw);
    RecipientRowsFacts(date, dir, RepayBy(raw), InterestBy(raw));
    forall rc ensures Has(RepayBy(raw), rc) ==> Has(InterestBy(raw), rc) {
      if Has(RepayBy(raw), rc) {
        var i :| 0 <= i < |raw| && raw[i].refCode == rc;
        assert ReceivesInterest(raw[i], rc);
        assert Owed(raw, rc);
      }
    }
  }

  /** A preview rerun overwrites the per-lot rows with the same values. */
  lemma PreviewRerun(date: Date, users: seq<UserRow>, invs: seq<Investment>, st: PayoutState)
    ensures PreviewRun(date, users, invs, PreviewRun(date, users, invs, st).1).1 ==
            PreviewRun(date, users, invs, st).1
  {
    var raw := RawRows(date, invs, Directory(users));
    PutAllTwice(st.aggregates, AggWrites(raw));
  }

  /** A commit that stored rows cannot be repeated: the second insert hits the
      rows the first one stored and fails as a whole. */
  lemma CommitTwiceFails(date: Date, users: seq<UserRow>, aggRows: seq<AggRow>, st: PayoutState)
    requires CommitRun(date, users, aggRows, st).0.Ok?
    requires CommitRun(date, users, aggRows, st).0.value.inserted > 0
    ensures var st1 := CommitRun(date, users, aggRows, st).1;
            CommitRun(date, users, aggRows, st1).0.Err? && CommitRun(date, users, aggRows, st1).1 == st1
  {
    var dir := Directory(users);
    var inserts := RecipientRows(date, dir, RepayBy(aggRows), InterestBy(aggRows));
    var w := TransferWrites(inserts);
    PutAllLands(st.transfers, w, |w| - 1);
  }

  // ---------------------------------------------------------------------------
  // GET.

  /** A stored row as GET returns it: a missing status reads "pending". */
  function ListedRow(k: TransferKey, t: PayoutTransfer): TransferRow {
    TransferRow(k.refCode, t.userName, k.date, t.todayRepay, t.todayInterest, t.totalAmount,
                if t.status.Some? then t.status.value else "pending")
  }

  /** The ref_codes stored for a day, each once, in ascending order. */
  method DayCodes(date: Date, transfers: PayoutTable) returns (codes: seq<string>)
    ensures Ascending(codes)
    ensures forall i, j :: 0 <= i < j < |codes| ==> codes[i] != codes[j]
    ensures forall i :: 0 <= i < |codes| ==> TransferKey(codes[i], date) in transfers
    ensures forall k :: k in transfers && k.date == date ==>
              exists i :: 0 <= i < |codes| && codes[i] == k.refCode
  {
    var day := set k | k in transfers && k.date == date :: k.refCode;
    var found := Enumerate(day);
    codes := SortTexts(found);
    assert forall i :: 0 <= i < |codes| ==> codes[i] in multiset(found);
    forall k | k in transfers && k.date == date ensures k.refCode in multiset(codes) {
      assert k.refCode in day;
    }
    assert forall i, j :: 0 <= i < j < |codes| ==> codes[i] != codes[j] by {
      forall i, j | 0 <= i < j < |codes| ensures codes[i] != codes[j] {
        TextBeforeIrreflexive(codes[i]);
      }
    }
  }

  /** The listed rows of the day for the given ref_codes, in their order. */
  function DayRows(date: Date, transfers: PayoutTable, codes: seq<string>): (rows: seq<TransferRow>)
    requires forall i :: 0 <= i < |codes| ==> TransferKey(codes[i], date) in transfers
    ensures |rows| == |codes|
    ensures forall i :: 0 <= i < |codes| ==>
              rows[i].refCode == codes[i] && rows[i].date == date &&
              rows[i] == ListedRow(TransferKey(codes[i], date), transfers[TransferKey(codes[i], date)])
  {
    seq(|codes|, i requires 0 <= i < |codes| =>
          ListedRow(TransferKey(codes[i], date), transfers[TransferKey(codes[i], date)]))
  }

  /** `GET /api/admin/payouts?date=`: the day's rows in ascending ref_code
      order (`.order("ref_code")`) and their sums. */
  method Get(dateText: string, transfers: PayoutTable) returns (result: Result<GetResponse>)
    ensures !IsIsoDate(dateText) ==> result.Err? && result.status == 400
    ensures IsIsoDate(dateText) ==>
              result.Ok? && result.value.sums == SumsOf(result.value.rows) &&
              (forall i :: 0 <= i < |result.value.rows| ==>
                 var row := result.value.rows[i];
                 var k := TransferKey(row.refCode, DateOf(dateText));
                 row.date == k.date && k in transfers && row == ListedRow(k, transfers[k])) &&
              (forall k :: k in transfers && k.date == DateOf(dateText) ==> RowFor(result.value.rows, k.refCode)) &&
              (forall i, j :: 0 <= i < j < |result.value.rows| ==>
                 TextBefore(result.value.rows[i].refCode, result.value.rows[j].refCode)) &&
              (forall i, j :: 0 <= i < j < |result.value.rows| ==>
                 result.value.rows[i].refCode != result.value.rows[j].refCode)
  {
    if !IsIsoDate(dateText) {
      return Err(400, "date(YYYY-MM-DD) 필요");
    }
    var date := DateOf(dateText);
    var codes := DayCodes(date, transfers);
    var rows := DayRows(date, transfers, codes);
    forall k | k in transfers && k.date == date
      ensures RowFor(rows, k.refCode)
    {
      var i :| 0 <= i < |codes| && codes[i] == k.refCode;
      assert rows[i].refCode == k.refCode;
    }
    result := Ok(Listed(rows, SumsOf(rows)));
  }

  /** What a successful commit inserts, GET lists back unchanged. */
  lemma CommitListed(date: Date, users: seq<UserRow>, aggRows: seq<AggRow>, st: PayoutState)
    requires CommitRun(date, users, aggRows, st).0.Ok?
    ensures var st1 := CommitRun(date, users, aggRows, st).1;
            var inserts := RecipientRows(date, Directory(users), RepayBy(aggRows), InterestBy(aggRows));
            forall i :: 0 <= i < |inserts| ==>
              TransferKeyOf(inserts[i]) in st1.transfers &&
              ListedRow(TransferKeyOf(inserts[i]), st1.transfers[TransferKeyOf(inserts[i])]) == inserts[i]
  {
    var dir := Directory(users);
    var inserts := RecipientRows(date, dir, RepayBy(aggRows), InterestBy(aggRows));
    RepayByFacts(aggRows);
    InterestByFacts(aggRows);
    RecipientRowsFacts(date, dir, RepayBy(aggRows), InterestBy(aggRows));
    var w := TransferWrites(inserts);
    forall i | 0 <= i < |inserts|
      ensures TransferKeyOf(inserts[i]) in PutAll(st.transfers, w) &&
              PutAll(st.transfers, w)[TransferKeyOf(inserts[i])] == StoredTransfer(inserts[i])
    {
      PutAllLands(st.transfers, w, i);
    }
  }
}
