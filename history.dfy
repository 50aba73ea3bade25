/** The two history pages of a user: repayments (`src/app/harumoney/repayments/page.tsx`,
    repayment_logs summed per repay_date) and deposits
    (`src/app/harumoney/deposits/deposits-client.tsx`, the "payout" rows of
    asset_ledger summed per transfer_date). Both merge the rows into one per
    date, list the dates newest first, and show the total. */
module History {
  import opened Common
  import opened Folds
  import opened Tally
  import opened Store

  /** Dates strictly decreasing. */
  predicate Descending(s: Tally<Date>) {
    forall i, j :: 0 <= i < j < |s| ==> s[i].0 > s[j].0
  }

  /** Places an entry before the first entry with an earlier date. */
  function Insert(e: (Date, real), s: Tally<Date>): Tally<Date> {
    if |s| == 0 then [e]
    else if e.0 > s[0].0 then [e] + s
    else [s[0]] + Insert(e, s[1..])
  }

  /** `sort((a, b) => (a[0] > b[0] ? -1 : 1))` on the entries of a map, whose
      dates are distinct, so that the comparator orders them consistently and
      the result is the unique newest-first order. */
  function SortDesc(t: Tally<Date>): Tally<Date> {
    if |t| == 0 then [] else Insert(t[0], SortDesc(t[1..]))
  }

  lemma {:induction false} InsertFacts(e: (Date, real), s: Tally<Date>)
    requires Descending(s) && !Has(s, e.0)
    ensures Descending(Insert(e, s))
    ensures |Insert(e, s)| == |s| + 1
    ensures Total(Insert(e, s)) == Total(s) + e.1
    ensures forall k :: Has(Insert(e, s), k) <==> Has(s, k) || k == e.0
    ensures forall k :: Get0(Insert(e, s), k) == if k == e.0 then e.1 else Get0(s, k)
  {
    if |s| > 0 && e.0 <= s[0].0 {
      assert s[0].0 != e.0;
      InsertFacts(e, s[1..]);
      var r := Insert(e, s);
      assert r == [s[0]] + Insert(e, s[1..]);
      forall i, j | 0 <= i < j < |r| ensures r[i].0 > r[j].0 {
        if i == 0 {
          var rest := Insert(e, s[1..]);
          assert r[j] == rest[j - 1];
          assert r[j] in rest;
          var k := r[j].0;
          assert Has(rest, k) by { HasIn(rest, j - 1); }
          if k != e.0 {
            assert Has(s[1..], k);
            HasIndex(s[1..], k);
          }
        }
      }
    } else if |s| > 0 {
      forall i, j | 0 <= i < j < |[e] + s| ensures ([e] + s)[i].0 > ([e] + s)[j].0 {
        if i > 0 {
          assert ([e] + s)[i] == s[i - 1];
        }
        assert ([e] + s)[j] == s[j - 1];
      }
    }
  }

  /** Entry `i` of `t` is found by `Has`. */
  lemma {:induction false} HasIn(t: Tally<Date>, i: nat)
    requires i < |t|
    ensures Has(t, t[i].0)
  {
    if i > 0 {
      HasIn(t[1..], i - 1);
    }
  }

  /** A key found by `Has` sits at some index. */
  lemma {:induction false} HasIndex(t: Tally<Date>, k: Date)
    requires Has(t, k)
    ensures exists i :: 0 <= i < |t| && t[i].0 == k
  {
    if t[0].0 != k {
      HasIndex(t[1..], k);
      var i :| 0 <= i < |t[1..]| && t[1..][i].0 == k;
      assert t[i + 1].0 == k;
    }
  }

  /** Sorting a map keeps every entry (the same dates with the same amounts
      and the same total) and lists the dates newest first. */
  lemma {:induction false} SortDescFacts(t: Tally<Date>)
    requires Valid(t)
    ensures Descending(SortDesc(t)) && |SortDesc(t)| == |t|
    ensures Total(SortDesc(t)) == Total(t)
    ensures forall k :: Has(SortDesc(t), k) <==> Has(t, k)
    ensures forall k :: Get0(SortDesc(t), k) == Get0(t, k)
  {
    if |t| > 0 {
      SortDescFacts(t[1..]);
      assert !Has(t[1..], t[0].0);
      assert !Has(SortDesc(t[1..]), t[0].0);
      InsertFacts(t[0], SortDesc(t[1..]));
    }
  }

  // ---------------------------------------------------------------------------
  // Repayment history.

  function LogDate(r: RepaymentLog): Date { r.repayDate }
  function LogAmount(r: RepaymentLog): real { r.amount }

  /** The `forEach` that sums the logs per date. */
  method MergeByDate(data: seq<RepaymentLog>) returns (m: Tally<Date>)
    ensures m == Collect(data, LogDate, LogAmount)
  {
    m := [];
    for i := 0 to |data|
      invariant m == Collect(data[..i], LogDate, LogAmount)
    {
      CollectStep(data, i, LogDate, LogAmount);
      var r := data[i];
      m := Add(m, r.repayDate, r.amount);
    }
    assert data[..|data|] == data;
  }

  function MineLog(ref: string): RepaymentLog -> bool {
    (r: RepaymentLog) => r.refCode == ref
  }

  datatype Page = Page(rows: Tally<Date>, total: real)

  /** The repayment page for `ref`: without a ref nothing is read and the
      list stays empty. */
  method RepaymentLogs(ref: string, logs: seq<RepaymentLog>) returns (page: Page)
    ensures ref == "" ==> page == Page([], 0.0)
    ensures ref != "" ==> page.rows == SortDesc(Collect(Filter(logs, MineLog(ref)), LogDate, LogAmount))
    ensures page.total == Total(page.rows)
  {
    if ref == "" {
      return Page([], 0.0);
    }
    var data := Filter(logs, MineLog(ref));
    var byDate := MergeByDate(data);
    var merged := SortDesc(byDate);
    page := Page(merged, Total(merged));
  }

  /** One row per date the rows have, each with the sum of that date's
      amounts, newest first, and a total equal to the sum of all the rows. */
  lemma MergedFacts<T>(data: seq<T>, date: T -> Date, amount: T -> real)
    ensures var merged := SortDesc(Collect(data, date, amount));
            Descending(merged) &&
            (forall d :: Has(merged, d) <==> exists i :: 0 <= i < |data| && date(data[i]) == d) &&
            (forall d :: Get0(merged, d) == Sum(data, Where(date, amount, d))) &&
            Total(merged) == Sum(data, amount)
  {
    CollectFacts(data, date, amount);
    SortDescFacts(Collect(data, date, amount));
  }

  /** A ref's repayment rows: the dates of its logs, newest first, each with
      the sum of its logs of that date, and a total equal to the sum of its
      logs. */
  lemma RepaymentPageFacts(ref: string, logs: seq<RepaymentLog>)
    requires ref != ""
    ensures var data := Filter(logs, MineLog(ref));
            var merged := SortDesc(Collect(data, LogDate, LogAmount));
            Descending(merged) &&
            (forall d :: Has(merged, d) <==> exists i :: 0 <= i < |data| && data[i].repayDate == d) &&
            (forall d :: Get0(merged, d) == Sum(data, Where(LogDate, LogAmount, d))) &&
            Total(merged) == Sum(data, LogAmount)
  {
    MergedFacts(Filter(logs, MineLog(ref)), LogDate, LogAmount);
  }

  // ---------------------------------------------------------------------------
  // Deposit history.

  /** A row of asset_ledger as read: its key and amount. */
  type LedgerRow = (LedgerKey, real)

  function RowDate(r: LedgerRow): Date { r.0.date }
  function RowAmount(r: LedgerRow): real { r.1 }

  function PayoutOf(ref: string): LedgerRow -> bool {
    (r: LedgerRow) => r.0.refCode == ref && r.0.reason == "payout"
  }

  /** The `forEach` that sums the rows per date. */
  method MergeDeposits(data: seq<LedgerRow>) returns (m: Tally<Date>)
    ensures m == Collect(data, RowDate, RowAmount)
  {
    m := [];
    for i := 0 to |data|
      invariant m == Collect(data[..i], RowDate, RowAmount)
    {
      CollectStep(data, i, RowDate, RowAmount);
      var r := data[i];
      m := Add(m, r.0.date, r.1);
    }
    assert data[..|data|] == data;
  }

  /** The deposit page for `ref`: only its "payout" ledger rows. */
  method Deposits(ref: string, rows: seq<LedgerRow>) returns (page: Page)
    ensures ref == "" ==> page == Page([], 0.0)
    ensures ref != "" ==> page.rows == SortDesc(Collect(Filter(rows, PayoutOf(ref)), RowDate, RowAmount))
    ensures page.total == Total(page.rows)
  {
    if ref == "" {
      return Page([], 0.0);
    }
    var data := Filter(rows, PayoutOf(ref));
    var byDate := MergeDeposits(data);
    var merged := SortDesc(byDate);
    page := Page(merged, Total(merged));
  }

  /** A ref's deposit rows: only payout rows count; one row per date, newest
      first, each with the sum of that date's payout rows, and a total equal
      to the sum of its payout rows. */
  lemma DepositPageFacts(ref: string, rows: seq<LedgerRow>)
    requires ref != ""
    ensures var data := Filter(rows, PayoutOf(ref));
            var merged := SortDesc(Collect(data, RowDate, RowAmount));
            (forall r :: r in data ==> r.0.reason == "payout" && r.0.refCode == ref) &&
            Descending(merged) &&
            (forall d :: Has(merged, d) <==> exists i :: 0 <= i < |data| && data[i].0.date == d) &&
            (forall d :: Get0(merged, d) == Sum(data, Where(RowDate, RowAmount, d))) &&
            Total(merged) == Sum(data, RowAmount)
  {
    var data := Filter(rows, PayoutOf(ref));
    forall r | r in data ensures r.0.reason == "payout" && r.0.refCode == ref {
      assert PayoutOf(ref)(r);
    }
    MergedFacts(data, RowDate, RowAmount);
  }
}
