/** The wallet page (`src/app/wallet/page.tsx`): the holdings (the sum of the
    user's asset ledger), today's repayment and whether it is paid, the
    cumulative repayment and the remaining principal, each a fold over the
    rows of one table, and the amounts cut to cents for display. */
module Wallet {
  import opened Common
  import opened Folds
  import opened Store

  const KRW_PER_USDT: real := 1500.0

  /** `Math.trunc`. */
  function TruncInt(x: real): (r: int)
    ensures x >= 0.0 ==> r as real <= x < r as real + 1.0
    ensures x < 0.0 ==> r as real - 1.0 < x <= r as real
  {
    if x >= 0.0 then x.Floor else -((-x).Floor)
  }

  /** The won value shown next to a USDT amount. */
  function KrwOf(usdt: real): int { TruncInt(usdt * KRW_PER_USDT) }

  /** `trunc2`: cut to two decimals toward zero. */
  function Trunc2(v: real): (r: real)
    ensures WholeCents(r)
    ensures v >= 0.0 ==> 0.0 <= r <= v < r + 0.01
    ensures v < 0.0 ==> r - 0.01 < v <= r <= 0.0
  {
    var k := TruncInt(v * 100.0);
    CentsAreWhole(k);
    k as real / 100.0
  }

  /** Cutting toward zero treats both signs alike. */
  lemma Trunc2Odd(v: real)
    ensures Trunc2(-v) == -Trunc2(v)
  {
    if v > 0.0 {
      assert -v * 100.0 == -(v * 100.0);
    } else if v < 0.0 {
      assert -v * 100.0 == -(v * 100.0);
    }
  }

  // ---------------------------------------------------------------------------
  // Holdings.

  function AmountIn(ledger: Ledger): LedgerKey -> real {
    k => if k in ledger then ledger[k] else 0.0
  }

  /** `fetchVirtualBalance`: the sum of the amounts of the rows read, here the
      keys `ks` of the user's ledger rows in the order they come back. */
  function VirtualBalance(ledger: Ledger, ks: seq<LedgerKey>): real {
    Sum(ks, AmountIn(ledger))
  }

  /** Whatever order the rows come back in, the holdings are the user's
      ledger balance. */
  lemma {:induction false} VirtualBalanceIsBalance(ledger: Ledger, ks: seq<LedgerKey>, rc: string)
    requires forall i, j :: 0 <= i < j < |ks| ==> ks[i] != ks[j]
    requires forall k :: k in ks <==> k in EntriesOf(ledger, rc)
    ensures VirtualBalance(ledger, ks) == Balance(ledger, rc)
  {
    SumEnumerates(EntriesOf(ledger, rc), ledger, ks);
  }

  lemma {:induction false} SumEnumerates(m: map<LedgerKey, real>, ledger: Ledger, ks: seq<LedgerKey>)
    requires forall k :: k in m ==> k in ledger && m[k] == ledger[k]
    requires forall i, j :: 0 <= i < j < |ks| ==> ks[i] != ks[j]
    requires forall k :: k in ks <==> k in m
    ensures Sum(ks, AmountIn(ledger)) == MapSum(m)
    decreases |ks|
  {
    if |ks| == 0 {
      assert m.Keys == {};
    } else {
      var init, last := ks[..|ks| - 1], ks[|ks| - 1];
      assert last in ks;
      MapSumPick(m, last);
      var m' := m - {last};
      forall k ensures k in init <==> k in m' {
        if k in init {
          var i :| 0 <= i < |init| && init[i] == k;
          assert ks[i] == k;
        }
        if k in m' {
          assert k in ks;
          var i :| 0 <= i < |ks| && ks[i] == k;
          assert i != |ks| - 1;
          assert init[i] == k;
        }
      }
      SumEnumerates(m', ledger, init);
    }
  }

  // ---------------------------------------------------------------------------
  // Today's repayment.

  /** A status that counts as paid. */
  predicate IsDone(status: Option<string>) {
    var st := Lower(if status.Some? then status.value else "");
    st == "sent" || st == "success" || st == "completed"
  }

  function TodayRepay(r: PayoutTransfer): real { r.todayRepay }

  function Done(): PayoutTransfer -> bool {
    (r: PayoutTransfer) => IsDone(r.status)
  }

  datatype TodayMoney = TodayMoney(amount: real, paid: bool)

  /** `fetchTodayMoneyFromPayouts` over the user's payout rows of today. */
  function TodayMoneyOf(rows: seq<PayoutTransfer>): (t: TodayMoney)
    ensures t.amount == Sum(rows, TodayRepay)
    ensures t.paid <==> exists i :: 0 <= i < |rows| && IsDone(rows[i].status)
  {
    var paid := |Filter(rows, Done())| > 0;
    assert paid <==> exists i :: 0 <= i < |rows| && IsDone(rows[i].status) by {
      if exists i :: 0 <= i < |rows| && IsDone(rows[i].status) {
        var i :| 0 <= i < |rows| && IsDone(rows[i].status);
        assert rows[i] in rows && Done()(rows[i]);
      }
      if paid {
        var x := Filter(rows, Done())[0];
        assert x in Filter(rows, Done());
        var i :| 0 <= i < |rows| && rows[i] == x;
        assert Done()(x);
      }
    }
    TodayMoney(Sum(rows, TodayRepay), paid)
  }

  /** A status is compared without regard to case. */
  lemma DoneIgnoresCase()
    ensures IsDone(Some("Sent")) && !IsDone(Some("Paid")) && !IsDone(None)
  {
    assert Lower("Sent") == "sent" by {
      assert Lower("t") == "t";
      assert Lower("nt") == "nt";
      assert Lower("ent") == "ent";
    }
    assert Lower("Paid") == "paid" by {
      assert Lower("d") == "d";
      assert Lower("id") == "id";
      assert Lower("aid") == "aid";
    }
  }

  // ---------------------------------------------------------------------------
  // Cumulative repayment.

  /** `fetchCumulativeRepayFromPayouts`: the completed rows if there are any,
      otherwise every row. */
  function CumulativeRepay(rows: seq<PayoutTransfer>): real {
    var done := Filter(rows, Done());
    Sum(if |done| > 0 then done else rows, TodayRepay)
  }

  method FetchCumulativeRepay(rows: seq<PayoutTransfer>) returns (cum: real)
    ensures cum == CumulativeRepay(rows)
  {
    var done := Filter(rows, Done());
    if |done| == 0 {
      done := rows;
    }
    cum := Sum(done, TodayRepay);
  }

  function DoneRepay(r: PayoutTransfer): real { if IsDone(r.status) then r.todayRepay else 0.0 }

  /** With a completed row the sum covers exactly the completed rows; with
      none it covers every row. */
  lemma CumulativeRepayFacts(rows: seq<PayoutTransfer>)
    ensures (exists i :: 0 <= i < |rows| && IsDone(rows[i].status)) ==> CumulativeRepay(rows) == Sum(rows, DoneRepay)
    ensures (forall i :: 0 <= i < |rows| ==> !IsDone(rows[i].status)) ==> CumulativeRepay(rows) == Sum(rows, TodayRepay)
  {
    var done := Filter(rows, Done());
    forall x ensures DoneRepay(x) == (if Done()(x) then TodayRepay(x) else 0.0) {
    }
    SumFilter(rows, Done(), TodayRepay, DoneRepay);
    if exists i :: 0 <= i < |rows| && IsDone(rows[i].status) {
      var i :| 0 <= i < |rows| && IsDone(rows[i].status);
      assert rows[i] in rows && Done()(rows[i]);
      assert rows[i] in done;
    } else {
      FilterNone(rows, Done());
    }
  }

  // ---------------------------------------------------------------------------
  // Remaining principal.

  function NormStatus(r: Repayment): string { Trim(Lower(r.status)) }

  function Remaining(r: Repayment): real { r.principalRemaining }

  function ActiveRow(): Repayment -> bool {
    (r: Repayment) => NormStatus(r) == "active"
  }

  /** `fetchRemainingFromRepayments`: the active rows' remaining principal,
      or every row's when no row is active or the active ones sum to 0; 0
      without a ref code. */
  function RemainingOf(rc: string, rows: seq<Repayment>): real {
    if rc == "" then 0.0
    else
      var active := Filter(rows, ActiveRow());
      var sum := Sum(active, Remaining);
      if |active| == 0 || sum == 0.0 then Sum(rows, Remaining) else sum
  }

  method FetchRemainingFromRepayments(rc: string, rows: seq<Repayment>) returns (sum: real)
    ensures sum == RemainingOf(rc, rows)
  {
    if rc == "" {
      return 0.0;
    }
    var active := Filter(rows, ActiveRow());
    sum := Sum(active, Remaining);
    if |active| == 0 || sum == 0.0 {
      sum := Sum(rows, Remaining);
    }
  }

  function ActiveRemaining(r: Repayment): real { if NormStatus(r) == "active" then r.principalRemaining else 0.0 }

  /** The two outcomes: the active rows' sum when it is non-zero, otherwise the
      sum over every row. */
  lemma RemainingFacts(rc: string, rows: seq<Repayment>)
    requires rc != ""
    ensures Sum(rows, ActiveRemaining) != 0.0 ==> RemainingOf(rc, rows) == Sum(rows, ActiveRemaining)
    ensures Sum(rows, ActiveRemaining) == 0.0 ==> RemainingOf(rc, rows) == Sum(rows, Remaining)
  {
    forall x ensures ActiveRemaining(x) == (if ActiveRow()(x) then Remaining(x) else 0.0) {
    }
    SumFilter(rows, ActiveRow(), Remaining, ActiveRemaining);
    if |Filter(rows, ActiveRow())| == 0 {
      assert Sum(Filter(rows, ActiveRow()), Remaining) == 0.0;
    }
  }

  /** A status reading "active" in any case, padded with white space, counts
      as active. */
  lemma StatusNormalised(r: Repayment, pre: string, word: string, post: string)
    requires AllSpace(pre) && AllSpace(post) && Lower(word) == "active"
    requires r.status == pre + word + post
    ensures ActiveRow()(r)
  {
    LowerAppend(pre + word, post);
    LowerAppend(pre, word);
    LowerSpace(pre);
    LowerSpace(post);
    TrimPadded(pre, "active", post);
  }

  // ---------------------------------------------------------------------------
  // Display.

  /** `displayedRemainingUSDT`: before today is paid, today's planned amount
      is still counted as remaining. */
  function DisplayedRemaining(paid: bool, remaining: real, planned: real): real {
    Trunc2(if paid then remaining else remaining + planned)
  }

  /** The shown remaining principal is the remaining amount (plus today's
      planned one while unpaid) cut toward zero to the cent. */
  lemma DisplayedRemainingFacts(paid: bool, remaining: real, planned: real)
    ensures var v := if paid then remaining else remaining + planned;
            var r := DisplayedRemaining(paid, remaining, planned);
            WholeCents(r) &&
            (v >= 0.0 ==> 0.0 <= r <= v < r + 0.01) && (v < 0.0 ==> r - 0.01 < v <= r <= 0.0)
  {
  }
}
