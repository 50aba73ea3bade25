/** The asset history helpers (`src/lib/assetHistory.ts`): every change of a
    user's holdings is recorded as a positive amount rounded to cents with a
    direction, "in" or "out"; a zero amount is not recorded; the totals are the
    "in" and the "out" amounts summed per user. */
module AssetHistory {
  import opened Common
  import opened Folds

  /** `Math.round(x * 100) / 100`: JavaScript rounds halves upward. */
  function Round2(x: real): (r: real)
    ensures WholeCents(r)
    ensures x - 0.005 < r <= x + 0.005
  {
    var k := (x * 100.0 + 0.5).Floor;
    CentsAreWhole(k);
    k as real / 100.0
  }

  function Abs(x: real): real { if x < 0.0 then -x else x }

  /** `normalizeAmount`: the absolute value rounded to cents; something that is
      not a number (None) counts as 0. */
  function NormalizeAmount(n: Option<real>): (r: real)
    ensures r >= 0.0 && WholeCents(r)
    ensures n.None? ==> r == 0.0
    ensures n.Some? ==> Abs(n.value) - 0.005 < r <= Abs(n.value) + 0.005
  {
    var v := if n.Some? then Abs(n.value) else 0.0;
    Round2(v)
  }

  /** The sign of the amount never matters. */
  lemma NormalizeSignless(x: real)
    ensures NormalizeAmount(Some(-x)) == NormalizeAmount(Some(x))
  {
    assert Abs(-x) == Abs(x);
  }

  /** An amount normalises to zero exactly when it is under half a cent either
      way. */
  lemma NormalizeZeroIff(x: real)
    ensures NormalizeAmount(Some(x)) == 0.0 <==> -0.005 < x < 0.005
  {
    var v := Abs(x);
    var k := (v * 100.0 + 0.5).Floor;
    assert NormalizeAmount(Some(x)) == k as real / 100.0;
    if -0.005 < x < 0.005 {
      assert 0.0 <= v * 100.0 + 0.5 < 1.0;
      assert k == 0;
    } else {
      assert v * 100.0 + 0.5 >= 1.0;
      assert k >= 1;
    }
  }

  datatype ChangeType = HaruDeposit | ReinvestWithdraw | CashWithdraw

  datatype Direction = In | Out

  /** The text stored in the `direction` column. */
  function DirectionText(d: Direction): string {
    match d
    case In => "in"
    case Out => "out"
  }

  /** `labelOf`. */
  function LabelOf(t: ChangeType): string {
    match t
    case HaruDeposit => "하루머니 입금"
    case ReinvestWithdraw => "보충 출금(재투자)"
    case CashWithdraw => "현금교환 출금"
  }

  /** `TYPE_DEFAULT_DIRECTION`. */
  function DefaultDirection(t: ChangeType): Direction {
    match t
    case HaruDeposit => In
    case ReinvestWithdraw => Out
    case CashWithdraw => Out
  }

  /** `resolveDirection`: an explicit "in" or "out" is kept; anything else
      (missing or some other text) gives the change type's default. */
  function ResolveDirection(t: ChangeType, direction: Option<string>): (d: Direction)
    ensures direction == Some("in") ==> d == In
    ensures direction == Some("out") ==> d == Out
    ensures direction != Some("in") && direction != Some("out") ==> d == DefaultDirection(t)
    ensures t == HaruDeposit && direction != Some("out") ==> d == In
    ensures t != HaruDeposit && direction != Some("in") ==> d == Out
  {
    if direction == Some("in") then In
    else if direction == Some("out") then Out
    else DefaultDirection(t)
  }

  /** A row of asset_history (its id and creation time are left to the
      database; `kstDate` is the Korean day of the write). */
  datatype HistoryRow = HistoryRow(
    refCode: string,
    changeType: ChangeType,
    direction: string,
    amount: real,
    memo: string,
    balanceAfter: Option<real>,
    kstDate: Date)

  /** The parameters of `addAssetHistory`, and an item of the batch. */
  datatype Entry = Entry(
    refCode: string,
    changeType: ChangeType,
    direction: Option<string>,
    amount: Option<real>,
    memo: Option<string>,
    balanceAfter: Option<real>)

  /** The payload of one entry, written on `today`. */
  function PayloadOf(e: Entry, today: Date): HistoryRow {
    HistoryRow(e.refCode, e.changeType, DirectionText(ResolveDirection(e.changeType, e.direction)),
               NormalizeAmount(e.amount), if e.memo.Some? then e.memo.value else LabelOf(e.changeType),
               e.balanceAfter, today)
  }

  predicate Recorded(e: Entry) { NormalizeAmount(e.amount) != 0.0 }

  datatype AddResult = Skipped(reason: string) | Inserted

  /** `addAssetHistory`: a zero amount inserts nothing; otherwise the
      normalised row is appended. */
  method AddAssetHistory(e: Entry, today: Date, table: seq<HistoryRow>)
    returns (result: AddResult, table': seq<HistoryRow>)
    ensures !Recorded(e) ==> result == Skipped("amount_zero") && table' == table
    ensures Recorded(e) ==> result == Inserted && table' == table + [PayloadOf(e, today)]
  {
    var finalAmount := NormalizeAmount(e.amount);
    if finalAmount == 0.0 {
      return Skipped("amount_zero"), table;
    }
    var finalDirection := ResolveDirection(e.changeType, e.direction);
    var payload := HistoryRow(e.refCode, e.changeType, DirectionText(finalDirection), finalAmount,
                              if e.memo.Some? then e.memo.value else LabelOf(e.changeType), e.balanceAfter, today);
    table' := table + [payload];
    result := Inserted;
  }

  /** Every recorded row has a positive amount, a direction of "in" or "out",
      and the change type's label when no memo was given. */
  lemma PayloadFacts(e: Entry, today: Date)
    requires Recorded(e)
    ensures var row := PayloadOf(e, today);
            row.amount > 0.0 &&
            (row.direction == "in" || row.direction == "out") &&
            (e.memo.None? ==> row.memo == LabelOf(e.changeType)) &&
            row.refCode == e.refCode && row.kstDate == today
  {
  }

  /** The batch's rows: the recorded entries, in order. */
  function BatchRows(items: seq<Entry>, today: Date): (rows: seq<HistoryRow>)
    ensures |rows| <= |items|
  {
    var kept := Filter(items, Recorded);
    seq(|kept|, i requires 0 <= i < |kept| => PayloadOf(kept[i], today))
  }

  /** The rows inserting the entries one at a time with `addAssetHistory`
      would append. */
  function OneByOne(items: seq<Entry>, today: Date): seq<HistoryRow> {
    if |items| == 0 then []
    else OneByOne(items[..|items| - 1], today) +
         (if Recorded(items[|items| - 1]) then [PayloadOf(items[|items| - 1], today)] else [])
  }

  /** A batch inserts exactly what the single inserts would, in the same order. */
  lemma {:induction false} BatchIsOneByOne(items: seq<Entry>, today: Date)
    ensures BatchRows(items, today) == OneByOne(items, today)
  {
    if |items| > 0 {
      var init, last := items[..|items| - 1], items[|items| - 1];
      BatchIsOneByOne(init, today);
      var k0 := Filter(init, Recorded);
      var k := Filter(items, Recorded);
      assert k == k0 + (if Recorded(last) then [last] else []);
      assert BatchRows(items, today) == BatchRows(init, today) + (if Recorded(last) then [PayloadOf(last, today)] else []);
    }
  }

  /** `addAssetHistoryBatch`: nothing is written when no entry is recorded;
      otherwise the rows are appended and their number reported. */
  method AddAssetHistoryBatch(items: seq<Entry>, today: Date, table: seq<HistoryRow>)
    returns (inserted: nat, table': seq<HistoryRow>)
    ensures inserted == |BatchRows(items, today)|
    ensures table' == table + BatchRows(items, today)
    ensures (forall i :: 0 <= i < |items| ==> !Recorded(items[i])) ==> inserted == 0 && table' == table
  {
    var rows := BatchRows(items, today);
    if forall i :: 0 <= i < |items| ==> !Recorded(items[i]) {
      FilterNone(items, Recorded);
    }
    if |rows| == 0 {
      return 0, table;
    }
    table' := table + rows;
    inserted := |rows|;
  }

  // ---------------------------------------------------------------------------
  // Totals.

  function Mine(refCode: string): HistoryRow -> bool {
    (r: HistoryRow) => r.refCode == refCode
  }

  function InAmount(r: HistoryRow): real { if r.direction == "in" then r.amount else 0.0 }
  function OutAmount(r: HistoryRow): real { if r.direction == "out" then r.amount else 0.0 }

  datatype Totals = Totals(totalIn: real, totalOut: real, balance: real)

  /** The loop of `getAssetHistoryTotals`: the unrounded "in" and "out" sums
      of the rows. */
  method SumDirections(data: seq<HistoryRow>) returns (totalIn: real, totalOut: real)
    ensures totalIn == Sum(data, InAmount) && totalOut == Sum(data, OutAmount)
  {
    totalIn, totalOut := 0.0, 0.0;
    for i := 0 to |data|
      invariant totalIn == Sum(data[..i], InAmount)
      invariant totalOut == Sum(data[..i], OutAmount)
    {
      SumStep(data, i, InAmount);
      SumStep(data, i, OutAmount);
      var r := data[i];
      var v := r.amount;
      if r.direction == "in" {
        totalIn := totalIn + v;
      } else if r.direction == "out" {
        totalOut := totalOut + v;
      }
    }
    assert data[..|data|] == data;
  }

  /** `getAssetHistoryTotals`. */
  method GetAssetHistoryTotals(refCode: string, table: seq<HistoryRow>) returns (t: Totals)
    ensures var data := Filter(table, Mine(refCode));
            t.totalIn == Round2(Sum(data, InAmount)) &&
            t.totalOut == Round2(Sum(data, OutAmount)) &&
            t.balance == Round2(t.totalIn - t.totalOut)
  {
    var data := Filter(table, Mine(refCode));
    var totalIn, totalOut := SumDirections(data);
    totalIn := Round2(totalIn);
    totalOut := Round2(totalOut);
    t := Totals(totalIn, totalOut, Round2(totalIn - totalOut));
  }

  /** Rows written by `addAssetHistory` are never negative, so neither total
      is. */
  lemma TotalsNonneg(data: seq<HistoryRow>)
    requires forall i :: 0 <= i < |data| ==> data[i].amount >= 0.0
    ensures Sum(data, InAmount) >= 0.0 && Sum(data, OutAmount) >= 0.0
  {
    SumNonneg(data, InAmount);
    SumNonneg(data, OutAmount);
  }

  /** Recording an entry for a user moves that user's unrounded "in" total by
      the normalised amount when its direction is "in", and the "out" total
      when it is "out"; other users' totals do not move. */
  lemma RecordMovesTotals(e: Entry, today: Date, table: seq<HistoryRow>, refCode: string)
    requires Recorded(e)
    ensures var before := Filter(table, Mine(refCode));
            var after := Filter(table + [PayloadOf(e, today)], Mine(refCode));
            var d := ResolveDirection(e.changeType, e.direction);
            Sum(after, InAmount) == Sum(before, InAmount) +
              (if e.refCode == refCode && d == In then NormalizeAmount(e.amount) else 0.0) &&
            Sum(after, OutAmount) == Sum(before, OutAmount) +
              (if e.refCode == refCode && d == Out then NormalizeAmount(e.amount) else 0.0)
  {
    var row := PayloadOf(e, today);
    var s := table + [row];
    assert s[..|s| - 1] == table;
    assert Mine(refCode)(row) == (e.refCode == refCode);
    var before := Filter(table, Mine(refCode));
    if e.refCode == refCode {
      assert Filter(s, Mine(refCode)) == before + [row];
      SumAppend(before, [row], InAmount);
      SumAppend(before, [row], OutAmount);
      assert [row][..0] == [];
    } else {
      assert Filter(s, Mine(refCode)) == before;
    }
  }

  // ---------------------------------------------------------------------------
  // The three wrappers.

  /** `addHaruDeposit`: always "in". */
  method AddHaruDeposit(refCode: string, amount: Option<real>, memo: Option<string>, balanceAfter: Option<real>,
                        today: Date, table: seq<HistoryRow>)
    returns (result: AddResult, table': seq<HistoryRow>)
    ensures var e := Entry(refCode, HaruDeposit, Some("in"), amount, Some(if memo.Some? then memo.value else "하루머니 입금"), balanceAfter);
            (!Recorded(e) ==> result == Skipped("amount_zero") && table' == table) &&
            (Recorded(e) ==> result == Inserted && table' == table + [PayloadOf(e, today)] &&
                             PayloadOf(e, today).direction == "in")
  {
    result, table' := AddAssetHistory(Entry(refCode, HaruDeposit, Some("in"), amount,
                                            Some(if memo.Some? then memo.value else "하루머니 입금"), balanceAfter), today, table);
  }

  /** `addReinvestWithdraw`: always "out". */
  method AddReinvestWithdraw(refCode: string, amount: Option<real>, memo: Option<string>, balanceAfter: Option<real>,
                             today: Date, table: seq<HistoryRow>)
    returns (result: AddResult, table': seq<HistoryRow>)
    ensures var e := Entry(refCode, ReinvestWithdraw, Some("out"), amount, Some(if memo.Some? then memo.value else "보충 출금(재투자)"), balanceAfter);
            (!Recorded(e) ==> result == Skipped("amount_zero") && table' == table) &&
            (Recorded(e) ==> result == Inserted && table' == table + [PayloadOf(e, today)] &&
                             PayloadOf(e, today).direction == "out")
  {
    result, table' := AddAssetHistory(Entry(refCode, ReinvestWithdraw, Some("out"), amount,
                                            Some(if memo.Some? then memo.value else "보충 출금(재투자)"), balanceAfter), today, table);
  }

  /** `addCashWithdraw`: always "out". */
  method AddCashWithdraw(refCode: string, amount: Option<real>, memo: Option<string>, balanceAfter: Option<real>,
                         today: Date, table: seq<HistoryRow>)
    returns (result: AddResult, table': seq<HistoryRow>)
    ensures var e := Entry(refCode, CashWithdraw, Some("out"), amount, Some(if memo.Some? then memo.value else "현금교환 출금"), balanceAfter);
            (!Recorded(e) ==> result == Skipped("amount_zero") && table' == table) &&
            (Recorded(e) ==> result == Inserted && table' == table + [PayloadOf(e, today)] &&
                             PayloadOf(e, today).direction == "out")
  {
    result, table' := AddAssetHistory(Entry(refCode, CashWithdraw, Some("out"), amount,
                                            Some(if memo.Some? then memo.value else "현금교환 출금"), balanceAfter), today, table);
  }
}
