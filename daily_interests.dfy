/** The daily interest route (`/api/admin/daily-interests`): for every user
    with principal left on the date (investments up to the date minus
    repayments up to the date, floored at 0), one daily_interests row with the
    user's, the referral and the center interest at the current annual rates,
    all on the user's own row. Without `commit` (the default) it only reports;
    with it the rows are upserted keyed (ref_code, interest_date). */
module DailyInterests {
  import opened Common
  import opened Folds
  import opened Tally
  import opened Store

  /** Annual rates, in percent, used when the rate table has no current row. */
  const FALLBACK_USER: real := 60.0
  const FALLBACK_REFERRAL: real := 36.0
  const FALLBACK_CENTER: real := 24.0

  const SAMPLE_SIZE: nat := 20

  /** A current row of interest_rates (`end_date` is null). */
  datatype CurrentRate = CurrentRate(role: string, annualRate: Option<real>)

  /** `rates?.find(r => r.role === role)?.annual_rate ?? FALLBACK[role]`. */
  function RateFor(rates: seq<CurrentRate>, role: string, fallback: real): (r: real)
    ensures (forall i :: 0 <= i < |rates| ==> rates[i].role != role) ==> r == fallback
    ensures forall i :: 0 <= i < |rates| && rates[i].role == role &&
                        (forall j :: 0 <= j < i ==> rates[j].role != role) ==>
              r == (if rates[i].annualRate.Some? then rates[i].annualRate.value else fallback)
  {
    if |rates| == 0 then fallback
    else if rates[0].role == role then
      (if rates[0].annualRate.Some? then rates[0].annualRate.value else fallback)
    else RateFor(rates[1..], role, fallback)
  }

  /** `dRate`: a percent annual rate as the share of one day. */
  function DailyRate(annualPct: real): real { annualPct / 365.0 }

  /** A daily_interests row. */
  datatype InterestRow = InterestRow(
    refCode: string,
    userName: Option<string>,
    interestDate: Date,
    investSum: real,
    principalBase: real,
    rateUser: real,
    rateReferral: real,
    rateCenter: real,
    userInterest: real,
    referralInterest: real,
    centerInterest: real,
    totalInterest: real,
    refBy: Option<string>,
    centerId: Option<string>)

  type InterestTable = map<(string, Date), InterestRow>

  datatype Rates = Rates(user: real, referral: real, center: real)

  function CurrentRates(rates: seq<CurrentRate>): Rates {
    Rates(RateFor(rates, "user", FALLBACK_USER), RateFor(rates, "referral", FALLBACK_REFERRAL),
          RateFor(rates, "center", FALLBACK_CENTER))
  }

  // ---------------------------------------------------------------------------
  // Principal up to the date.

  function InvAmount(inv: Investment): real { inv.amount }
  function RepOwner(r: Repayment): string { r.refCode }
  function RepAmount(r: Repayment): real { r.amount }

  /** `.lte("invest_date", date)`; a missing date never matches. */
  function InvestedBy(date: Date): Investment -> bool {
    (inv: Investment) => inv.investDate.Some? && inv.investDate.value <= date
  }

  /** `.lte("repay_date", date)`. */
  function RepaidBy(date: Date): Repayment -> bool {
    (r: Repayment) => r.repayDate.Some? && r.repayDate.value <= date
  }

  /** `invMap`. */
  function InvMap(date: Date, invs: seq<Investment>): Tally<string> {
    Collect(Filter(invs, InvestedBy(date)), InvOwner, InvAmount)
  }

  /** `repMap`. */
  function RepMap(date: Date, reps: seq<Repayment>): Tally<string> {
    Collect(Filter(reps, RepaidBy(date)), RepOwner, RepAmount)
  }

  /** `sumBy(inv, "ref_code")`. */
  method SumInvested(date: Date, invs: seq<Investment>) returns (m: Tally<string>)
    ensures m == InvMap(date, invs)
  {
    var rows := Filter(invs, InvestedBy(date));
    m := [];
    for i := 0 to |rows|
      invariant m == Collect(rows[..i], InvOwner, InvAmount)
    {
      CollectStep(rows, i, InvOwner, InvAmount);
      m := Add(m, rows[i].refCode, rows[i].amount);
    }
    assert rows[..|rows|] == rows;
  }

  /** `sumBy(rep, "ref_code")`. */
  method SumRepaid(date: Date, reps: seq<Repayment>) returns (m: Tally<string>)
    ensures m == RepMap(date, reps)
  {
    var rows := Filter(reps, RepaidBy(date));
    m := [];
    for i := 0 to |rows|
      invariant m == Collect(rows[..i], RepOwner, RepAmount)
    {
      CollectStep(rows, i, RepOwner, RepAmount);
      m := Add(m, rows[i].refCode, rows[i].amount);
    }
    assert rows[..|rows|] == rows;
  }

  /** `Math.max(investSum - repaySum, 0)`. */
  function Principal(investSum: real, repaySum: real): real {
    if investSum - repaySum > 0.0 then investSum - repaySum else 0.0
  }

  /** The row of user `u`, or nothing when no principal is left. */
  function RowOf(date: Date, rates: Rates, invMap: Tally<string>, repMap: Tally<string>, u: UserRow): Option<InterestRow> {
    var investSum := Get0(invMap, u.refCode);
    var principal := Principal(investSum, Get0(repMap, u.refCode));
    if principal <= 0.0 then None
    else
      var userInt := principal * DailyRate(rates.user);
      var refInt := principal * DailyRate(rates.referral);
      var ctrInt := principal * DailyRate(rates.center);
      Some(InterestRow(u.refCode, u.name, date, investSum, principal, rates.user, rates.referral, rates.center,
                       userInt, refInt, ctrInt, userInt + refInt + ctrInt,
                       if Truthy(u.refBy) then u.refBy else None,
                       if Truthy(u.centerId) then u.centerId else None))
  }

  /** `preview`: the rows of the users with principal left, in user order. */
  function Preview(date: Date, rates: Rates, invMap: Tally<string>, repMap: Tally<string>, users: seq<UserRow>): seq<InterestRow> {
    if |users| == 0 then []
    else
      var row := RowOf(date, rates, invMap, repMap, users[|users| - 1]);
      Preview(date, rates, invMap, repMap, users[..|users| - 1]) + (if row.Some? then [row.value] else [])
  }

  /** The user loop. */
  method BuildPreview(date: Date, rates: Rates, invMap: Tally<string>, repMap: Tally<string>, users: seq<UserRow>)
    returns (preview: seq<InterestRow>)
    ensures preview == Preview(date, rates, invMap, repMap, users)
  {
    preview := [];
    for i := 0 to |users|
      invariant preview == Preview(date, rates, invMap, repMap, users[..i])
    {
      var u := users[i];
      assert users[..i + 1][..i] == users[..i];
      var row := RowOf(date, rates, invMap, repMap, u);
      assert Preview(date, rates, invMap, repMap, users[..i + 1]) ==
             preview + (if row.Some? then [row.value] else []);
      var ref := u.refCode;
      var investSum := Get0(invMap, ref);
      var repaySum := Get0(repMap, ref);
      var principal := Principal(investSum, repaySum);
      if principal <= 0.0 {
        assert row.None?;
        continue;
      }
      var userInt := principal * DailyRate(rates.user);
      var refInt := principal * DailyRate(rates.referral);
      var ctrInt := principal * DailyRate(rates.center);
      var total := userInt + refInt + ctrInt;
      var r := InterestRow(ref, u.name, date, investSum, principal, rates.user, rates.referral, rates.center,
                           userInt, refInt, ctrInt, total,
                           if Truthy(u.refBy) then u.refBy else None,
                           if Truthy(u.centerId) then u.centerId else None);
      assert row.Some?;
      assert row.value == r by {
        assert row.value.investSum == r.investSum && row.value.principalBase == r.principalBase;
        assert row.value.userInterest == r.userInterest && row.value.referralInterest == r.referralInterest;
        assert row.value.centerInterest == r.centerInterest && row.value.totalInterest == r.totalInterest;
        assert row.value.refBy == r.refBy && row.value.centerId == r.centerId;
      }
      preview := preview + [r];
    }
    assert users[..|users|] == users;
  }

  /** `r` is the row the route accrues on `date`: a base equal to the
      owner's invested minus repaid and above zero, each interest the base times
      the annual rate over 365, all three on the owner's own row, and the total
      the three together. */
  predicate Accrued(r: InterestRow, date: Date, rates: Rates, invMap: Tally<string>, repMap: Tally<string>) {
    r.principalBase > 0.0 &&
    r.principalBase == Get0(invMap, r.refCode) - Get0(repMap, r.refCode) &&
    r.investSum == Get0(invMap, r.refCode) &&
    r.userInterest == r.principalBase * rates.user / 365.0 &&
    r.referralInterest == r.principalBase * rates.referral / 365.0 &&
    r.centerInterest == r.principalBase * rates.center / 365.0 &&
    r.totalInterest == r.userInterest + r.referralInterest + r.centerInterest &&
    r.interestDate == date
  }

  predicate HasUser(users: seq<UserRow>, rc: string) {
    exists u :: u in users && u.refCode == rc
  }

  predicate HasRow(rows: seq<InterestRow>, rc: string) {
    exists r :: r in rows && r.refCode == rc
  }

  /** Every row is an accrued row of some user, and there are no more rows
      than users; only users with principal left get one. */
  lemma {:induction false} PreviewRows(date: Date, rates: Rates, invMap: Tally<string>, repMap: Tally<string>, users: seq<UserRow>)
    ensures var rows := Preview(date, rates, invMap, repMap, users);
            |rows| <= |users| &&
            forall r :: r in rows ==> Accrued(r, date, rates, invMap, repMap) && HasUser(users, r.refCode)
  {
    if |users| > 0 {
      var init, last := users[..|users| - 1], users[|users| - 1];
      PreviewRows(date, rates, invMap, repMap, init);
      var rows := Preview(date, rates, invMap, repMap, users);
      var row := RowOf(date, rates, invMap, repMap, last);
      assert rows == Preview(date, rates, invMap, repMap, init) + (if row.Some? then [row.value] else []);
      forall r | r in rows ensures Accrued(r, date, rates, invMap, repMap) && HasUser(users, r.refCode) {
        if r in Preview(date, rates, invMap, repMap, init) {
          var u :| u in init && u.refCode == r.refCode;
          assert u in users;
        } else {
          assert last in users;
        }
      }
    }
  }

  /** Every user with principal left gets a row. */
  lemma {:induction false} PreviewCovers(date: Date, rates: Rates, invMap: Tally<string>, repMap: Tally<string>, users: seq<UserRow>)
    ensures var rows := Preview(date, rates, invMap, repMap, users);
            forall u :: u in users && Get0(invMap, u.refCode) - Get0(repMap, u.refCode) > 0.0 ==> HasRow(rows, u.refCode)
  {
    if |users| > 0 {
      var init, last := users[..|users| - 1], users[|users| - 1];
      PreviewCovers(date, rates, invMap, repMap, init);
      var rows := Preview(date, rates, invMap, repMap, users);
      var row := RowOf(date, rates, invMap, repMap, last);
      assert rows == Preview(date, rates, invMap, repMap, init) + (if row.Some? then [row.value] else []);
      forall u | u in users && Get0(invMap, u.refCode) - Get0(repMap, u.refCode) > 0.0
        ensures HasRow(rows, u.refCode)
      {
        if u == last {
          assert row.value in rows;
        } else {
          assert u in init;
          var r :| r in Preview(date, rates, invMap, repMap, init) && r.refCode == u.refCode;
          assert r in rows;
        }
      }
    }
  }

  // ---------------------------------------------------------------------------
  // The route.

  /** The six `sums` of the report. */
  datatype InterestSums = InterestSums(investSum: real, principalBase: real, userInterest: real,
                                       referralInterest: real, centerInterest: real, totalInterest: real)

  function RowInvest(r: InterestRow): real { r.investSum }
  function RowBase(r: InterestRow): real { r.principalBase }
  function RowUser(r: InterestRow): real { r.userInterest }
  function RowReferral(r: InterestRow): real { r.referralInterest }
  function RowCenter(r: InterestRow): real { r.centerInterest }
  function RowTotal(r: InterestRow): real { r.totalInterest }
  function RowUserReferral(r: InterestRow): real { r.userInterest + r.referralInterest }

  function SumsOfRows(rows: seq<InterestRow>): InterestSums {
    InterestSums(Sum(rows, RowInvest), Sum(rows, RowBase), Sum(rows, RowUser),
                 Sum(rows, RowReferral), Sum(rows, RowCenter), Sum(rows, RowTotal))
  }

  /** The total column sums to the three interest columns together. */
  lemma SumsBalanced(rows: seq<InterestRow>)
    requires forall i :: 0 <= i < |rows| ==>
               rows[i].totalInterest == rows[i].userInterest + rows[i].referralInterest + rows[i].centerInterest
    ensures var s := SumsOfRows(rows);
            s.totalInterest == s.userInterest + s.referralInterest + s.centerInterest
  {
    SumLinear(rows, RowUser, RowReferral, RowUserReferral);
    SumLinear(rows, RowUserReferral, RowCenter, RowTotal);
  }

  datatype InterestResponse =
    | Reported(rows: nat, sums: InterestSums, sample: seq<InterestRow>)
    | Upserted(upserted: nat)

  function InterestWrites(rows: seq<InterestRow>): (w: seq<((string, Date), InterestRow)>)
    ensures |w| == |rows|
    ensures forall i :: 0 <= i < |rows| ==> w[i] == ((rows[i].refCode, rows[i].interestDate), rows[i])
  {
    seq(|rows|, i requires 0 <= i < |rows| => ((rows[i].refCode, rows[i].interestDate), rows[i]))
  }

  /** The day's rows for the given tables. */
  function DayRows(date: Date, users: seq<UserRow>, invs: seq<Investment>, reps: seq<Repayment>, rates: seq<CurrentRate>)
    : seq<InterestRow>
  {
    Preview(date, CurrentRates(rates), InvMap(date, invs), RepMap(date, reps), users)
  }

  /** `POST /api/admin/daily-interests` with body `{ date, commit = false }`. */
  method Post(dateText: string, commit: Option<bool>, users: seq<UserRow>, invs: seq<Investment>,
              reps: seq<Repayment>, rates: seq<CurrentRate>, table: InterestTable)
    returns (result: Result<InterestResponse>, table': InterestTable)
    ensures !IsIsoDate(dateText) ==> result.Err? && result.status == 400 && table' == table
    ensures IsIsoDate(dateText) && commit != Some(true) ==>
              var rows := DayRows(DateOf(dateText), users, invs, reps, rates);
              table' == table &&
              result == Ok(Reported(|rows|, SumsOfRows(rows), rows[..if |rows| < SAMPLE_SIZE then |rows| else SAMPLE_SIZE]))
    ensures IsIsoDate(dateText) && commit == Some(true) ==>
              var rows := DayRows(DateOf(dateText), users, invs, reps, rates);
              result == Ok(Upserted(|rows|)) &&
              table' == (if |rows| > 0 then PutAll(table, InterestWrites(rows)) else table)
  {
    if !IsIsoDate(dateText) {
      return Err(400, "date(YYYY-MM-DD) 필요"), table;
    }
    var date := DateOf(dateText);
    var current := CurrentRates(rates);
    var invMap := SumInvested(date, invs);
    var repMap := SumRepaid(date, reps);
    var preview := BuildPreview(date, current, invMap, repMap, users);
    if commit != Some(true) {
      var n := if |preview| < SAMPLE_SIZE then |preview| else SAMPLE_SIZE;
      return Ok(Reported(|preview|, SumsOfRows(preview), preview[..n])), table;
    }
    table' := table;
    if |preview| > 0 {
      table' := PutAll(table, InterestWrites(preview));
    }
    result := Ok(Upserted(|preview|));
  }

  /** The report's total column is the three interest columns together. */
  lemma ReportBalanced(date: Date, users: seq<UserRow>, invs: seq<Investment>, reps: seq<Repayment>, rates: seq<CurrentRate>)
    ensures var s := SumsOfRows(DayRows(date, users, invs, reps, rates));
            s.totalInterest == s.userInterest + s.referralInterest + s.centerInterest
  {
    var rows := DayRows(date, users, invs, reps, rates);
    PreviewRows(date, CurrentRates(rates), InvMap(date, invs), RepMap(date, reps), users);
    forall i | 0 <= i < |rows|
      ensures rows[i].totalInterest == rows[i].userInterest + rows[i].referralInterest + rows[i].centerInterest
    {
      assert rows[i] in rows;
    }
    SumsBalanced(rows);
  }

  /** With no current rate rows the fallbacks 60/36/24 apply. */
  lemma FallbackRates()
    ensures CurrentRates([]) == Rates(60.0, 36.0, 24.0)
  {
  }

  /** Committing twice stores the same rows. */
  lemma CommitRerun(date: Date, users: seq<UserRow>, invs: seq<Investment>, reps: seq<Repayment>,
                    rates: seq<CurrentRate>, table: InterestTable)
    ensures var w := InterestWrites(DayRows(date, users, invs, reps, rates));
            PutAll(PutAll(table, w), w) == PutAll(table, w)
  {
    PutAllTwice(table, InterestWrites(DayRows(date, users, invs, reps, rates)));
  }
}
