/** The admin repayment page (`src/app/admin/repayments/page.tsx`): for a
    chosen user it sums the invested principal and the logged repayments, shows
    what is left, and records a new repayment as a row of repayment_logs. */
module AdminRepayments {
  import opened Common
  import opened Folds

  /** A row of investments, as far as the page reads it. */
  datatype InvestRow = InvestRow(refCode: string, investAmountUsdt: Option<real>)

  /** A row of repayment_logs. */
  datatype LogRow = LogRow(
    refCode: string,
    investmentId: Option<string>,
    amount: Option<real>,
    repayDate: string,
    status: Option<string>,
    createdAt: string)

  /** The page reads at most this many logs, newest first. */
  const LOG_LIMIT: nat := 200

  const NEED_USER: string := "유저(초대코드)를 선택하세요."
  const BAD_AMOUNT: string := "상환 금액을 올바르게 입력하세요."
  const NEED_DATE: string := "상환일을 선택하세요."
  const COMPLETED: string := "completed"

  // ---------------------------------------------------------------------------
  // Rounding to cents.

  /** The nearest cent to a non-negative `x`, a half cent going up. */
  function HalfUp(x: real): (r: real)
    requires x >= 0.0
    ensures WholeCents(r)
    ensures 0.0 <= r && x - 0.005 < r <= x + 0.005
  {
    var k := (x * 100.0 + 0.5).Floor;
    CentsAreWhole(k);
    k as real / 100.0
  }

  /** `Number(x.toFixed(2))`: the nearest cent, a half cent going away from
      zero (`toFixed` rounds the magnitude and keeps the sign). */
  function Fixed2(x: real): (r: real)
    ensures WholeCents(r)
    ensures x - 0.005 <= r <= x + 0.005
    ensures x >= 0.0 ==> r >= 0.0
    ensures x <= 0.0 ==> r <= 0.0
  {
    if x < 0.0 then
      var h := HalfUp(-x);
      WholeCentsNeg(h);
      -h
    else HalfUp(x)
  }

  /** Rounding treats both signs alike. */
  lemma Fixed2Odd(x: real)
    ensures Fixed2(-x) == -Fixed2(x)
  {
    if x == 0.0 {
      assert HalfUp(0.0) == 0.0 by { assert (0.0 * 100.0 + 0.5).Floor == 0; }
    }
  }

  /** A whole number of cents is left as it is. */
  lemma Fixed2Cents(k: int)
    ensures Fixed2(k as real / 100.0) == k as real / 100.0
  {
    var x := k as real / 100.0;
    if k >= 0 {
      assert x * 100.0 + 0.5 == k as real + 0.5;
      assert (x * 100.0 + 0.5).Floor == k;
    } else {
      assert -x * 100.0 + 0.5 == (-k) as real + 0.5;
      assert (-x * 100.0 + 0.5).Floor == -k;
    }
  }

  lemma HalfUpMonotone(a: real, b: real)
    requires 0.0 <= a <= b
    ensures HalfUp(a) <= HalfUp(b)
  {
    assert (a * 100.0 + 0.5).Floor <= (b * 100.0 + 0.5).Floor;
  }

  /** Rounding keeps the order of amounts. */
  lemma Fixed2Monotone(a: real, b: real)
    requires a <= b
    ensures Fixed2(a) <= Fixed2(b)
  {
    if 0.0 <= a {
      HalfUpMonotone(a, b);
    } else if b < 0.0 {
      HalfUpMonotone(-b, -a);
    }
  }

  // ---------------------------------------------------------------------------
  // The sums.

  /** `Number(x || 0)` on a numeric column: null reads 0. */
  function OrZero(x: Option<real>): real {
    if x.Some? then x.value else 0.0
  }

  function InvestOf(row: InvestRow): real { OrZero(row.investAmountUsdt) }
  function RepaidOf(row: LogRow): real { OrZero(row.amount) }

  function InvestorIs(refCode: string): InvestRow -> bool {
    (row: InvestRow) => row.refCode == refCode
  }

  function PayerIs(refCode: string): LogRow -> bool {
    (row: LogRow) => row.refCode == refCode
  }

  /** The user's investment amount of a row, 0 for another user's row. */
  function OwnInvest(refCode: string): InvestRow -> real {
    (row: InvestRow) => if row.refCode == refCode then InvestOf(row) else 0.0
  }

  /** The user's repaid amount of a row, 0 for another user's row. */
  function OwnRepaid(refCode: string): LogRow -> real {
    (row: LogRow) => if row.refCode == refCode then RepaidOf(row) else 0.0
  }

  /** `loadInvestSum`: the user's investments summed and rounded to cents; 0
      when the query fails (`table` None). */
  function InvestSum(table: Option<seq<InvestRow>>, refCode: string): (r: real)
    ensures table.None? ==> r == 0.0
    ensures table.Some? ==> r == Fixed2(Sum(table.value, OwnInvest(refCode)))
  {
    if table.None? then 0.0
    else
      var data := Filter(table.value, InvestorIs(refCode));
      SumFilter(table.value, InvestorIs(refCode), InvestOf, OwnInvest(refCode));
      Fixed2(Sum(data, InvestOf))
  }

  /** No log comes before a later one in repay_date order: newest first. */
  predicate NewestFirst(s: seq<LogRow>) {
    forall i, j :: 0 <= i < j < |s| ==> !TextBefore(s[i].repayDate, s[j].repayDate)
  }

  /** The head of a newest-first list is no older than the rest, which is
      newest first too. */
  lemma NewestFirstTail(s: seq<LogRow>)
    requires NewestFirst(s) && |s| > 0
    ensures NewestFirst(s[1..])
    ensures forall y :: y in s[1..] ==> !TextBefore(s[0].repayDate, y.repayDate)
  {
    forall y | y in s[1..] ensures !TextBefore(s[0].repayDate, y.repayDate) {
      var k :| 0 <= k < |s[1..]| && s[1..][k] == y;
      assert s[k + 1] == y;
    }
  }

  lemma NewestFirstCons(a: LogRow, rest: seq<LogRow>)
    requires NewestFirst(rest)
    requires forall y :: y in rest ==> !TextBefore(a.repayDate, y.repayDate)
    ensures NewestFirst([a] + rest)
  {
    var r := [a] + rest;
    forall i, j | 0 <= i < j < |r| ensures !TextBefore(r[i].repayDate, r[j].repayDate) {
      assert r[j] == rest[j - 1];
      if i > 0 {
        assert r[i] == rest[i - 1];
      }
    }
  }

  /** A log no older than the head of a newest-first list is no older than
      any of it. */
  lemma NoOlderThanAll(x: LogRow, s: seq<LogRow>)
    requires NewestFirst(s) && |s| > 0 && !TextBefore(x.repayDate, s[0].repayDate)
    ensures forall y :: y in s ==> !TextBefore(x.repayDate, y.repayDate)
  {
    forall y | y in s ensures !TextBefore(x.repayDate, y.repayDate) {
      if y != s[0] {
        NotBeforeTransitive(x.repayDate, s[0].repayDate, y.repayDate);
      }
    }
  }

  /** Puts `x` in its place among logs listed newest first. */
  function InsertByDate(x: LogRow, s: seq<LogRow>): (r: seq<LogRow>)
    requires NewestFirst(s)
    ensures NewestFirst(r)
    ensures multiset(r) == multiset(s) + multiset{x}
  {
    if |s| == 0 then [x]
    else
      assert s == [s[0]] + s[1..];
      NewestFirstTail(s);
      if !TextBefore(x.repayDate, s[0].repayDate) then
        NoOlderThanAll(x, s);
        NewestFirstCons(x, s);
        [x] + s
      else
        TextBeforeAsymmetric(x.repayDate, s[0].repayDate);
        var rest := InsertByDate(x, s[1..]);
        assert forall y :: y in rest ==> y in s[1..] || y == x by {
          forall y | y in rest ensures y in s[1..] || y == x {
            assert y in multiset(rest);
          }
        }
        NewestFirstCons(s[0], rest);
        [s[0]] + rest
  }

  /** `.order("repay_date", { ascending: false })`: the logs newest first. */
  function SortNewestFirst(s: seq<LogRow>): (r: seq<LogRow>)
    ensures NewestFirst(r)
    ensures multiset(r) == multiset(s)
  {
    if |s| == 0 then []
    else
      assert s == [s[0]] + s[1..];
      InsertByDate(s[0], SortNewestFirst(s[1..]))
  }

  /** Putting a log in its place adds its amount to the sum. */
  lemma {:induction false} InsertByDateSum(x: LogRow, s: seq<LogRow>, f: LogRow -> real)
    requires NewestFirst(s)
    ensures Sum(InsertByDate(x, s), f) == f(x) + Sum(s, f)
  {
    if |s| == 0 {
      assert [x] == [] + [x];
      SumAppend([], [x], f);
    } else {
      assert s == [s[0]] + s[1..];
      SumAppend([s[0]], s[1..], f);
      SumAppend([], [s[0]], f);
      assert [] + [s[0]] == [s[0]];
      if !TextBefore(x.repayDate, s[0].repayDate) {
        SumAppend([x], s, f);
        SumAppend([], [x], f);
        assert [] + [x] == [x];
      } else {
        var rest := InsertByDate(x, s[1..]);
        InsertByDateSum(x, s[1..], f);
        SumAppend([s[0]], rest, f);
      }
    }
  }

  /** Sorting keeps the sum. */
  lemma {:induction false} SortNewestFirstSum(s: seq<LogRow>, f: LogRow -> real)
    ensures Sum(SortNewestFirst(s), f) == Sum(s, f)
  {
    if |s| > 0 {
      assert s == [s[0]] + s[1..];
      SortNewestFirstSum(s[1..], f);
      InsertByDateSum(s[0], SortNewestFirst(s[1..]), f);
      SumAppend([s[0]], s[1..], f);
      SumAppend([], [s[0]], f);
      assert [] + [s[0]] == [s[0]];
    }
  }

  /** A prefix of a newest-first list is newest first. */
  lemma NewestFirstPrefix(s: seq<LogRow>, n: nat)
    requires NewestFirst(s) && n <= |s|
    ensures NewestFirst(s[..n])
  {
    forall i, j | 0 <= i < j < n ensures !TextBefore(s[..n][i].repayDate, s[..n][j].repayDate) {
      assert s[..n][i] == s[i] && s[..n][j] == s[j];
    }
  }

  /** The user's logs newest first, before the limit: as many as the user
      has, each a row of the user in the table. */
  function UserLogs(table: seq<LogRow>, refCode: string): (s: seq<LogRow>)
    ensures NewestFirst(s)
    ensures |s| == |Filter(table, PayerIs(refCode))|
    ensures forall x :: x in s ==> x in table && x.refCode == refCode
  {
    var mine := Filter(table, PayerIs(refCode));
    var sorted := SortNewestFirst(mine);
    assert |sorted| == |multiset(sorted)| == |mine|;
    forall x | x in sorted ensures x in table && x.refCode == refCode {
      assert x in multiset(mine);
    }
    sorted
  }

  /** Each log of the user appears there as often as in the table. */
  lemma UserLogsCount(table: seq<LogRow>, refCode: string, x: LogRow)
    requires x.refCode == refCode
    ensures multiset(UserLogs(table, refCode))[x] == multiset(table)[x]
  {
    FilterCount(table, PayerIs(refCode), x);
  }

  /** The logs `loadRepaymentLogs` reads: the user's rows of `table`, newest
      first, cut to the first LOG_LIMIT. */
  function LoadedLogs(table: seq<LogRow>, refCode: string): (r: seq<LogRow>)
    ensures var n := |Filter(table, PayerIs(refCode))|;
            |r| == if n <= LOG_LIMIT then n else LOG_LIMIT
    ensures NewestFirst(r)
    ensures r == UserLogs(table, refCode)[..|r|]
    ensures forall x :: x in r ==> x in table && x.refCode == refCode
  {
    var sorted := UserLogs(table, refCode);
    var n := if |sorted| <= LOG_LIMIT then |sorted| else LOG_LIMIT;
    NewestFirstPrefix(sorted, n);
    assert forall x :: x in sorted[..n] ==> x in sorted;
    sorted[..n]
  }

  /** A log that a prefix of a newest-first list leaves out is no newer than
      any log of the prefix. */
  lemma PrefixIsNewest(s: seq<LogRow>, n: nat, x: LogRow)
    requires NewestFirst(s) && n <= |s|
    requires multiset(s[..n])[x] < multiset(s)[x]
    ensures forall i :: 0 <= i < n ==> !TextBefore(s[i].repayDate, x.repayDate)
  {
    var rest := s[n..];
    assert s == s[..n] + rest;
    assert x in multiset(rest);
    var k :| 0 <= k < |rest| && rest[k] == x;
    assert s[n + k] == x;
  }

  /** The loaded logs are the newest: a log of the user that was left out is
      no newer than any loaded one. */
  lemma LoadedAreNewest(table: seq<LogRow>, refCode: string, x: LogRow)
    requires x.refCode == refCode
    requires multiset(LoadedLogs(table, refCode))[x] < multiset(table)[x]
    ensures forall i :: 0 <= i < |LoadedLogs(table, refCode)| ==>
              !TextBefore(LoadedLogs(table, refCode)[i].repayDate, x.repayDate)
  {
    var r := LoadedLogs(table, refCode);
    var sorted := UserLogs(table, refCode);
    UserLogsCount(table, refCode, x);
    PrefixIsNewest(sorted, |r|, x);
  }

  /** `repaySum`: the loaded logs summed and rounded to cents; 0 when the query
      fails (`loaded` None). */
  function RepaySum(loaded: Option<seq<LogRow>>): (r: real)
    ensures loaded.None? ==> r == 0.0
    ensures loaded.Some? ==> Sum(loaded.value, RepaidOf) - 0.005 <= r <= Sum(loaded.value, RepaidOf) + 0.005
  {
    if loaded.None? then 0.0 else Fixed2(Sum(loaded.value, RepaidOf))
  }

  /** With no more than LOG_LIMIT logs, the page sums every log of the user. */
  lemma RepaySumAllLogs(table: seq<LogRow>, refCode: string)
    requires |Filter(table, PayerIs(refCode))| <= LOG_LIMIT
    ensures RepaySum(Some(LoadedLogs(table, refCode))) == Fixed2(Sum(table, OwnRepaid(refCode)))
  {
    var mine := Filter(table, PayerIs(refCode));
    assert LoadedLogs(table, refCode) == UserLogs(table, refCode) == SortNewestFirst(mine);
    SortNewestFirstSum(mine, RepaidOf);
    SumFilter(table, PayerIs(refCode), RepaidOf, OwnRepaid(refCode));
  }

  /** `principal`: what is left of the investments after the repayments,
      rounded to cents and never below zero. */
  function Principal(investSum: real, repaySum: real): (r: real)
    ensures r >= 0.0
    ensures r == 0.0 <==> investSum - repaySum < 0.005
    ensures r > 0.0 ==> r == Fixed2(investSum - repaySum)
    ensures investSum - repaySum - 0.005 <= r
  {
    var d := investSum - repaySum;
    Fixed2Positive(d);
    var f := Fixed2(d);
    if f > 0.0 then f else 0.0
  }

  /** An amount rounds to a positive number of cents exactly when it is at
      least half a cent. */
  lemma Fixed2Positive(d: real)
    ensures Fixed2(d) > 0.0 <==> d >= 0.005
  {
    if d >= 0.005 {
      assert (d * 100.0 + 0.5).Floor >= 1;
    } else if d >= 0.0 {
      assert (d * 100.0 + 0.5).Floor == 0;
    }
  }

  /** More repaid never leaves more principal. */
  lemma PrincipalFalls(investSum: real, repaid: real, more: real)
    requires repaid <= more
    ensures Principal(investSum, more) <= Principal(investSum, repaid)
  {
    Fixed2Monotone(investSum - more, investSum - repaid);
  }

  // ---------------------------------------------------------------------------
  // Saving a repayment.

  datatype SaveOutcome =
    | Rejected(message: string)
    | Declined
    | Inserted(log: LogRow)

  /** `handleSave`. `amount` is `Number(amount)` of the typed text (None for
      NaN); `confirmed` is the answer to the question asked when the amount is
      above the principal, and `now` the creation time. */
  function HandleSave(selectedRef: string, amount: Option<real>, repayDate: string, principal: real,
                      confirmed: bool, now: string): (o: SaveOutcome)
    ensures o.Inserted? <==>
              selectedRef != "" && amount.Some? && amount.value > 0.0 && repayDate != "" &&
              (amount.value <= principal || confirmed)
    ensures selectedRef == "" ==> o == Rejected(NEED_USER)
    ensures selectedRef != "" && (amount.None? || amount.value <= 0.0) ==> o == Rejected(BAD_AMOUNT)
    ensures (selectedRef != "" && amount.Some? && amount.value > 0.0 && repayDate == "") ==> o == Rejected(NEED_DATE)
    ensures o.Declined? ==> amount.Some? && amount.value > principal && !confirmed
    ensures o.Inserted? ==>
              o.log.refCode == selectedRef && o.log.investmentId.None? && o.log.amount == amount &&
              o.log.repayDate == repayDate && o.log.status == Some(COMPLETED) && o.log.createdAt == now
  {
    if selectedRef == "" then Rejected(NEED_USER)
    else if amount.None? || amount.value <= 0.0 then Rejected(BAD_AMOUNT)
    else if repayDate == "" then Rejected(NEED_DATE)
    else if amount.value > principal && !confirmed then Declined
    else Inserted(LogRow(selectedRef, None, amount, repayDate, Some(COMPLETED), now))
  }

  /** An amount above the principal is only asked about: once confirmed it is
      saved like any other. */
  lemma OverPrincipalConfirmed(selectedRef: string, amount: real, repayDate: string, principal: real, now: string)
    requires selectedRef != "" && amount > 0.0 && repayDate != ""
    ensures HandleSave(selectedRef, Some(amount), repayDate, principal, true, now).Inserted?
    ensures !HandleSave(selectedRef, Some(amount), repayDate, principal, false, now).Rejected?
  {
  }

  /** Saving appends the log; the user's repaid total grows by the amount and
      no other user's total moves. */
  lemma SaveAddsRepayment(table: seq<LogRow>, selectedRef: string, amount: real, repayDate: string,
                          principal: real, confirmed: bool, now: string, other: string)
    requires HandleSave(selectedRef, Some(amount), repayDate, principal, confirmed, now).Inserted?
    requires other != selectedRef
    ensures var table' := table + [HandleSave(selectedRef, Some(amount), repayDate, principal, confirmed, now).log];
            Sum(table', OwnRepaid(selectedRef)) == Sum(table, OwnRepaid(selectedRef)) + amount &&
            Sum(table', OwnRepaid(other)) == Sum(table, OwnRepaid(other))
  {
    var log := HandleSave(selectedRef, Some(amount), repayDate, principal, confirmed, now).log;
    SumAppend(table, [log], OwnRepaid(selectedRef));
    SumAppend(table, [log], OwnRepaid(other));
    assert [log][..0] == [];
  }
}
