/** The admin harumoney summary (`GET /api/admin/harumoney`): for one date, a
    row per user with that day's repayments (summed), that day's user interest
    (the last daily_interests row read wins) and the two together. */
module HarumoneyRoute {
  import opened Common
  import opened Folds
  import opened Tally
  import opened Store
  import PayoutsLib
  import DailyInterests

  /** A row of the response. */
  datatype SummaryRow = SummaryRow(refCode: string, todayRepay: real, todayInterest: real, todayTotal: real)

  function IntOwner(r: DailyInterests.InterestRow): string { r.refCode }
  function IntAmount(r: DailyInterests.InterestRow): real { r.userInterest }

  function OnDate(date: Date): DailyInterests.InterestRow -> bool {
    (r: DailyInterests.InterestRow) => r.interestDate == date
  }

  /** `intMap`: each user's user_interest of `date`, the last row read winning. */
  function IntMap(date: Date, interests: seq<DailyInterests.InterestRow>): Tally<string> {
    Latest(Filter(interests, OnDate(date)), IntOwner, IntAmount)
  }

  /** The `forEach` over the day's daily_interests rows. */
  method CollectInterest(date: Date, interests: seq<DailyInterests.InterestRow>) returns (intMap: Tally<string>)
    ensures intMap == IntMap(date, interests)
  {
    var rows := Filter(interests, OnDate(date));
    intMap := [];
    for i := 0 to |rows|
      invariant intMap == Latest(rows[..i], IntOwner, IntAmount)
    {
      LatestStep(rows, i, IntOwner, IntAmount);
      intMap := Put(intMap, rows[i].refCode, rows[i].userInterest);
    }
    assert rows[..|rows|] == rows;
  }

  function SummaryOf(repayMap: Tally<string>, intMap: Tally<string>, code: string): SummaryRow {
    var repay, interest := Get0(repayMap, code), Get0(intMap, code);
    SummaryRow(code, repay, interest, repay + interest)
  }

  /** The `forEach` over `allKeys`. */
  method BuildSummary(repayMap: Tally<string>, intMap: Tally<string>) returns (rows: seq<SummaryRow>)
    ensures |rows| == |UnionKeys(repayMap, intMap)|
    ensures forall i :: 0 <= i < |rows| ==> rows[i] == SummaryOf(repayMap, intMap, UnionKeys(repayMap, intMap)[i])
  {
    var allKeys := UnionKeys(repayMap, intMap);
    rows := [];
    for i := 0 to |allKeys|
      invariant |rows| == i
      invariant forall j :: 0 <= j < i ==> rows[j] == SummaryOf(repayMap, intMap, allKeys[j])
    {
      var code := allKeys[i];
      var todayRepay := Get0(repayMap, code);
      var todayInterest := Get0(intMap, code);
      rows := rows + [SummaryRow(code, todayRepay, todayInterest, todayRepay + todayInterest)];
    }
  }

  /** `GET /api/admin/harumoney?date=…`; the date defaults to the current
      Korean day, which is passed in. */
  method Get(date: Option<Date>, today: Date, repays: seq<Repayment>, interests: seq<DailyInterests.InterestRow>)
    returns (day: Date, rows: seq<SummaryRow>)
    ensures day == (if date.Some? then date.value else today)
    ensures var rb, ib := PayoutsLib.RepayByRef(day, repays), IntMap(day, interests);
            |rows| == |UnionKeys(rb, ib)| &&
            forall i :: 0 <= i < |rows| ==> rows[i] == SummaryOf(rb, ib, UnionKeys(rb, ib)[i])
  {
    day := if date.Some? then date.value else today;
    var repayMap := PayoutsLib.SumRepaid(day, repays);
    var intMap := CollectInterest(day, interests);
    rows := BuildSummary(repayMap, intMap);
  }

  predicate Listed(rows: seq<SummaryRow>, rc: string) {
    exists i :: 0 <= i < |rows| && rows[i].refCode == rc
  }

  predicate InterestThatDay(date: Date, interests: seq<DailyInterests.InterestRow>, rc: string) {
    exists j :: 0 <= j < |interests| && interests[j].interestDate == date && interests[j].refCode == rc
  }

  /** The rows of `Get` for `date`: no user twice, a user is listed iff it has
      a repayment or an interest row that day, and each row's total is its
      repayment plus its interest. */
  lemma SummaryRows(date: Date, repays: seq<Repayment>, interests: seq<DailyInterests.InterestRow>, rows: seq<SummaryRow>)
    requires var rb, ib := PayoutsLib.RepayByRef(date, repays), IntMap(date, interests);
             |rows| == |UnionKeys(rb, ib)| &&
             forall i :: 0 <= i < |rows| ==> rows[i] == SummaryOf(rb, ib, UnionKeys(rb, ib)[i])
    ensures forall i, j :: 0 <= i < j < |rows| ==> rows[i].refCode != rows[j].refCode
    ensures forall rc :: Listed(rows, rc) <==>
              PayoutsLib.RepaidThatDay(date, repays, rc) || InterestThatDay(date, interests, rc)
    ensures forall i :: 0 <= i < |rows| ==> rows[i].todayTotal == rows[i].todayRepay + rows[i].todayInterest
  {
    var rb, ib := PayoutsLib.RepayByRef(date, repays), IntMap(date, interests);
    var keys := UnionKeys(rb, ib);
    UnionKeysFacts(rb, ib);
    PayoutsLib.RepayByRefFacts(date, repays);
    forall rc ensures Has(ib, rc) <==> InterestThatDay(date, interests, rc) {
      IntMapHas(date, interests, rc);
    }
    forall rc ensures Listed(rows, rc) <==> rc in keys {
      if rc in keys {
        var i :| 0 <= i < |keys| && keys[i] == rc;
        assert rows[i].refCode == rc;
      }
    }
  }

  lemma IntMapHas(date: Date, interests: seq<DailyInterests.InterestRow>, rc: string)
    ensures Has(IntMap(date, interests), rc) <==> InterestThatDay(date, interests, rc)
  {
    var day := Filter(interests, OnDate(date));
    LatestFacts(day, IntOwner, IntAmount, rc);
    if Has(IntMap(date, interests), rc) {
      var i :| 0 <= i < |day| && IntOwner(day[i]) == rc;
      assert day[i] in day;
      var j :| 0 <= j < |interests| && interests[j] == day[i];
      assert OnDate(date)(interests[j]);
    }
    if InterestThatDay(date, interests, rc) {
      var j :| 0 <= j < |interests| && interests[j].interestDate == date && interests[j].refCode == rc;
      assert interests[j] in interests && OnDate(date)(interests[j]);
      var i :| 0 <= i < |day| && day[i] == interests[j];
      assert IntOwner(day[i]) == rc;
    }
  }

  /** A user's repayment is the sum of its repayments dated `date` (0 when it
      has none), and its interest is the user_interest of the last of its
      interest rows of that date (0 when it has none): later rows overwrite,
      they are not added. */
  lemma SummaryAmounts(date: Date, repays: seq<Repayment>, interests: seq<DailyInterests.InterestRow>, rc: string)
    ensures SummaryOf(PayoutsLib.RepayByRef(date, repays), IntMap(date, interests), rc).todayRepay ==
            Sum(repays, PayoutsLib.DayRepaid(date, rc))
    ensures !InterestThatDay(date, interests, rc) ==>
            SummaryOf(PayoutsLib.RepayByRef(date, repays), IntMap(date, interests), rc).todayInterest == 0.0
    ensures forall i :: LastWithKey(Filter(interests, OnDate(date)), IntOwner, rc, i) ==>
            SummaryOf(PayoutsLib.RepayByRef(date, repays), IntMap(date, interests), rc).todayInterest ==
            Filter(interests, OnDate(date))[i].userInterest
  {
    PayoutsLib.RepayByRefFacts(date, repays);
    LatestFacts(Filter(interests, OnDate(date)), IntOwner, IntAmount, rc);
    IntMapHas(date, interests, rc);
    if !InterestThatDay(date, interests, rc) {
      GetAbsent(IntMap(date, interests), rc);
    }
  }

  /** Two interest rows for the same user and day: the second one is reported,
      not their sum. */
  lemma InterestOverwrites()
    ensures var a := DailyInterests.InterestRow("HM1", None, 20240101, 0.0, 0.0, 0.0, 0.0, 0.0, 1.0, 0.0, 0.0, 1.0, None, None);
            var b := a.(userInterest := 2.0);
            Get0(IntMap(20240101, [a, b]), "HM1") == 2.0
  {
    var a := DailyInterests.InterestRow("HM1", None, 20240101, 0.0, 0.0, 0.0, 0.0, 0.0, 1.0, 0.0, 0.0, 1.0, None, None);
    var b := a.(userInterest := 2.0);
    assert Filter([a, b], OnDate(20240101)) == [a, b] by {
      assert [a, b][..1] == [a];
      assert [a][..0] == [];
    }
    assert [a, b][..1] == [a];
    assert Latest([a, b], IntOwner, IntAmount) == Put(Latest([a], IntOwner, IntAmount), "HM1", 2.0);
    PutGet(Latest([a], IntOwner, IntAmount), "HM1", 2.0, "HM1");
  }
}
