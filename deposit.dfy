/** The admin deposit run (`POST /api/admin/payouts/deposit`): for every
    payout of the day that carries a principal repayment, draw the repayment
    from the user's active principal lots (largest daily amount first), log each
    draw, and credit the day's whole payout to the user's asset ledger. */
module PayoutDeposit {
  import opened Common
  import opened Folds
  import opened Store

  /** The columns the run reads from a day's `payout_transfers` row. */
  datatype PayoutRow = PayoutRow(refCode: string, todayRepay: real, totalAmount: real)

  /** The new remaining principal of one lot. */
  datatype LotUpdate = LotUpdate(id: string, principalRemaining: real)

  /** The tables the run writes. */
  datatype Tables = Tables(repayments: seq<Repayment>, logs: seq<RepaymentLog>, ledger: Ledger)

  /** The tables after a run together with the three counters it reports. */
  datatype Run = Run(tables: Tables, logsUpserted: nat, repaymentsUpdated: nat, ledgerUpserted: nat)

  datatype DepositReport = DepositReport(
    logsUpserted: nat, repaymentsUpdated: nat, ledgerUpserted: nat, date: string)

  const PAYOUT_REASON: string := "payout"

  // ---------------------------------------------------------------------------
  // The lot order: `order("daily_amount", { ascending: false })`. PostgreSQL
  // puts a null daily amount first in a descending order.

  /** `a` may come before `b`. */
  predicate Ranks(a: Repayment, b: Repayment) {
    a.dailyAmount.None? || (b.dailyAmount.Some? && a.dailyAmount.value >= b.dailyAmount.value)
  }

  predicate SortedByDaily(s: seq<Repayment>) {
    forall i, j :: 0 <= i < j < |s| ==> Ranks(s[i], s[j])
  }

  lemma RanksTotal(a: Repayment, b: Repayment)
    ensures Ranks(a, b) || Ranks(b, a)
  {
  }

  /** A lot that may come before every lot of a sorted list heads it sorted. */
  lemma SortedCons(a: Repayment, rest: seq<Repayment>)
    requires SortedByDaily(rest)
    requires forall y :: y in rest ==> Ranks(a, y)
    ensures SortedByDaily([a] + rest)
  {
    forall i, j | 0 <= i < j < |[a] + rest|
      ensures Ranks(([a] + rest)[i], ([a] + rest)[j])
    {
      if i == 0 {
        assert ([a] + rest)[j] == rest[j - 1];
      } else {
        assert ([a] + rest)[i] == rest[i - 1] && ([a] + rest)[j] == rest[j - 1];
      }
    }
  }

  /** The head of a sorted list of lots may come before all of its tail. */
  lemma DailyHead(s: seq<Repayment>)
    requires SortedByDaily(s) && |s| > 0
    ensures forall y :: y in s[1..] ==> Ranks(s[0], y)
  {
    forall y | y in s[1..] ensures Ranks(s[0], y) {
      var k :| 0 <= k < |s[1..]| && s[1..][k] == y;
      assert s[k + 1] == y;
    }
  }

  function InsertByDaily(s: seq<Repayment>, x: Repayment): (r: seq<Repayment>)
    requires SortedByDaily(s)
    ensures multiset(r) == multiset(s) + multiset{x}
    ensures forall y :: y in r ==> y in s || y == x
    ensures SortedByDaily(r)
    decreases |s|
  {
    if |s| == 0 then [x]
    else
      assert s == [s[0]] + s[1..];
      DailyHead(s);
      if Ranks(s[0], x) then
        var rest := InsertByDaily(s[1..], x);
        SortedCons(s[0], rest);
        [s[0]] + rest
      else
        RanksTotal(s[0], x);
        SortedCons(x, s);
        [x] + s
  }

  /** The user's lots in the order the query returns them (ties keep table
      order). */
  function OrderByDaily(s: seq<Repayment>): (r: seq<Repayment>)
    ensures multiset(r) == multiset(s)
    ensures SortedByDaily(r)
  {
    if |s| == 0 then []
    else
      assert s == s[..|s| - 1] + [s[|s| - 1]];
      InsertByDaily(OrderByDaily(s[..|s| - 1]), s[|s| - 1])
  }

  predicate IsActiveLotOf(r: Repayment, refCode: string) {
    r.refCode == refCode && r.status == "active"
  }

  /** `select ... eq("ref_code", ref).eq("status", "active").order(...)`. */
  function ActiveLots(reps: seq<Repayment>, refCode: string): (lots: seq<Repayment>)
    ensures SortedByDaily(lots)
    ensures forall r :: r in lots <==> r in reps && IsActiveLotOf(r, refCode)
  {
    var mine := Filter(reps, r => IsActiveLotOf(r, refCode));
    var lots := OrderByDaily(mine);
    assert forall r :: r in lots <==> r in mine by {
      forall r ensures r in lots <==> r in mine {
        assert r in lots <==> r in multiset(lots);
      }
    }
    lots
  }

  // ---------------------------------------------------------------------------
  // The allocation of one user's repayment over their lots.

  /** The lot carries a non-zero daily amount, which then caps each draw. */
  predicate HasCap(lot: Repayment) {
    lot.dailyAmount.Some? && lot.dailyAmount.value != 0.0
  }

  /** `Number(r.daily_amount || remain)`. */
  function Cap(remain: real, lot: Repayment): real {
    if HasCap(lot) then lot.dailyAmount.value else remain
  }

  function Min3(a: real, b: real, c: real): real {
    if a <= b && a <= c then a else if b <= c then b else c
  }

  /** What the loop takes from one lot while `remain` is left: zero when it
      breaks (`remain <= 0`) or skips the lot. */
  function Portion(remain: real, lot: Repayment): real {
    if remain <= 0.0 || lot.principalRemaining <= 0.0 then 0.0
    else
      var p := Min3(lot.principalRemaining, remain, Cap(remain, lot));
      if p <= 0.0 then 0.0 else p
  }

  /** The draws on `lots`, one per lot, when `remain` is to be repaid. */
  function Portions(remain: real, lots: seq<Repayment>): (ps: seq<real>)
    ensures |ps| == |lots|
    decreases |lots|
  {
    if |lots| == 0 then []
    else
      var p := Portion(remain, lots[0]);
      [p] + Portions(remain - p, lots[1..])
  }

  function Drawn(ps: seq<real>): real {
    if |ps| == 0 then 0.0 else ps[0] + Drawn(ps[1..])
  }

  /** The most a lot can give: its remaining principal, or its daily amount when
      that is smaller; nothing when either is not positive. */
  function Limit(lot: Repayment): real {
    if lot.principalRemaining <= 0.0 then 0.0
    else if HasCap(lot) && lot.dailyAmount.value < lot.principalRemaining then
      (if lot.dailyAmount.value <= 0.0 then 0.0 else lot.dailyAmount.value)
    else lot.principalRemaining
  }

  /** The `updates` array the loop builds: one entry per lot drawn on. */
  function UpdatesOf(lots: seq<Repayment>, ps: seq<real>): seq<LotUpdate>
    requires |ps| == |lots|
    decreases |lots|
  {
    if |lots| == 0 then []
    else
      (if ps[0] > 0.0 then [LotUpdate(lots[0].id, lots[0].principalRemaining - ps[0])] else []) +
      UpdatesOf(lots[1..], ps[1..])
  }

  function LogOf(refCode: string, date: Date, lot: Repayment, p: real): RepaymentLog {
    RepaymentLog(refCode, lot.investmentId, p, date, "paid", Some(PAYOUT_REASON))
  }

  /** The `logs` array the loop builds, matching `UpdatesOf` entry by entry. */
  function LogsOf(refCode: string, date: Date, lots: seq<Repayment>, ps: seq<real>): seq<RepaymentLog>
    requires |ps| == |lots|
    decreases |lots|
  {
    if |lots| == 0 then []
    else
      (if ps[0] > 0.0 then [LogOf(refCode, date, lots[0], ps[0])] else []) +
      LogsOf(refCode, date, lots[1..], ps[1..])
  }

  /** Once nothing is left to repay, no lot is drawn on. */
  lemma {:induction false} Exhausted(refCode: string, date: Date, remain: real, lots: seq<Repayment>)
    requires remain <= 0.0
    ensures forall i :: 0 <= i < |lots| ==> Portions(remain, lots)[i] == 0.0
    ensures Drawn(Portions(remain, lots)) == 0.0
    ensures UpdatesOf(lots, Portions(remain, lots)) == []
    ensures LogsOf(refCode, date, lots, Portions(remain, lots)) == []
    decreases |lots|
  {
    if |lots| > 0 {
      Exhausted(refCode, date, remain, lots[1..]);
    }
  }

  /** One step of the allocation: the first lot's draw, then the rest. */
  lemma Unroll(refCode: string, date: Date, remain: real, lots: seq<Repayment>)
    requires |lots| > 0
    ensures var p := Portion(remain, lots[0]);
            var rest := Portions(remain - p, lots[1..]);
            Portions(remain, lots) == [p] + rest &&
            Drawn(Portions(remain, lots)) == p + Drawn(rest) &&
            UpdatesOf(lots, Portions(remain, lots)) ==
              (if p > 0.0 then [LotUpdate(lots[0].id, lots[0].principalRemaining - p)] else []) +
              UpdatesOf(lots[1..], rest) &&
            LogsOf(refCode, date, lots, Portions(remain, lots)) ==
              (if p > 0.0 then [LogOf(refCode, date, lots[0], p)] else []) +
              LogsOf(refCode, date, lots[1..], rest)
  {
    var p := Portion(remain, lots[0]);
    var ps := Portions(remain, lots);
    assert ps[1..] == Portions(remain - p, lots[1..]);
  }

  /** The allocation promises: every draw is non-negative, never exceeds the
      lot's remaining principal nor its daily amount, the draws add up to no
      more than the day's repayment, and the loop is greedy: either every lot
      gave all it could, or the day's repayment is used up. */
  lemma PortionsFacts(remain: real, lots: seq<Repayment>)
    ensures forall i :: 0 <= i < |lots| ==> 0.0 <= Portions(remain, lots)[i] <= Limit(lots[i])
    ensures forall i :: 0 <= i < |lots| && Portions(remain, lots)[i] > 0.0 ==>
              Portions(remain, lots)[i] <= lots[i].principalRemaining &&
              (HasCap(lots[i]) ==> Portions(remain, lots)[i] <= lots[i].dailyAmount.value)
    ensures remain >= 0.0 ==> 0.0 <= Drawn(Portions(remain, lots)) <= remain
    ensures remain >= 0.0 ==>
              Drawn(Portions(remain, lots)) == remain ||
              forall i :: 0 <= i < |lots| ==> Portions(remain, lots)[i] == Limit(lots[i])
  {
    PortionsBounded(remain, lots);
    PortionsGreedy(remain, lots);
  }

  /** Each draw is within what its lot can give. */
  lemma {:induction false} PortionsBounded(remain: real, lots: seq<Repayment>)
    ensures forall i :: 0 <= i < |lots| ==> 0.0 <= Portions(remain, lots)[i] <= Limit(lots[i])
    ensures forall i :: 0 <= i < |lots| && Portions(remain, lots)[i] > 0.0 ==>
              Portions(remain, lots)[i] <= lots[i].principalRemaining &&
              (HasCap(lots[i]) ==> Portions(remain, lots)[i] <= lots[i].dailyAmount.value)
    decreases |lots|
  {
    if |lots| > 0 {
      var p := Portion(remain, lots[0]);
      var ps := Portions(remain, lots);
      var rest := Portions(remain - p, lots[1..]);
      PortionsBounded(remain - p, lots[1..]);
      assert ps == [p] + rest;
      forall i | 1 <= i < |lots| ensures ps[i] == rest[i - 1] && lots[i] == lots[1..][i - 1] {
      }
    }
  }

  /** The draws use up the repayment or take all every lot can give. */
  lemma {:induction false} PortionsGreedy(remain: real, lots: seq<Repayment>)
    ensures remain >= 0.0 ==> 0.0 <= Drawn(Portions(remain, lots)) <= remain
    ensures remain >= 0.0 ==>
              Drawn(Portions(remain, lots)) == remain ||
              forall i :: 0 <= i < |lots| ==> Portions(remain, lots)[i] == Limit(lots[i])
    decreases |lots|
  {
    if |lots| > 0 {
      var p := Portion(remain, lots[0]);
      var ps := Portions(remain, lots);
      var rest := Portions(remain - p, lots[1..]);
      PortionsGreedy(remain - p, lots[1..]);
      assert ps == [p] + rest;
      assert Drawn(ps) == p + Drawn(rest);
      if remain >= 0.0 && p < Limit(lots[0]) {
        assert p == remain;
        Exhausted("", 0, remain - p, lots[1..]);
      }
      if remain >= 0.0 && Drawn(ps) != remain {
        forall i | 0 <= i < |lots| ensures ps[i] == Limit(lots[i]) {
          if i > 0 {
            assert ps[i] == rest[i - 1] && lots[i] == lots[1..][i - 1];
          }
        }
      }
    }
  }

  /** A positive draw never exceeds the lot's remaining principal. */
  lemma PortionBound(remain: real, lot: Repayment)
    ensures Portion(remain, lot) > 0.0 ==> Portion(remain, lot) <= lot.principalRemaining
  {
  }

  /** The update of lot `j` to `u` lowers its remaining principal. */
  predicate Lowers(lots: seq<Repayment>, u: LotUpdate, j: int) {
    0 <= j < |lots| && lots[j].id == u.id && u.principalRemaining < lots[j].principalRemaining
  }

  /** Each update leaves a lot it names with its old remaining principal minus
      a positive draw, never below zero. */
  lemma {:induction false} UpdatesFacts(remain: real, lots: seq<Repayment>)
    ensures forall u :: u in UpdatesOf(lots, Portions(remain, lots)) ==>
              u.principalRemaining >= 0.0 && exists j :: Lowers(lots, u, j)
    decreases |lots|
  {
    if |lots| > 0 {
      var p := Portion(remain, lots[0]);
      var rest := UpdatesOf(lots[1..], Portions(remain - p, lots[1..]));
      var head: seq<LotUpdate> := if p > 0.0 then [LotUpdate(lots[0].id, lots[0].principalRemaining - p)] else [];
      Unroll("", 0, remain, lots);
      assert UpdatesOf(lots, Portions(remain, lots)) == head + rest;
      PortionBound(remain, lots[0]);
      UpdatesFacts(remain - p, lots[1..]);
      forall u | u in head + rest
        ensures u.principalRemaining >= 0.0 && exists j :: Lowers(lots, u, j)
      {
        if u in rest {
          var j :| Lowers(lots[1..], u, j);
          assert Lowers(lots, u, j + 1);
        } else {
          assert Lowers(lots, u, 0);
        }
      }
    }
  }

  /** One log per update, each recording a positive draw as a paid payout
      repayment of the user on the run's date. */
  lemma {:induction false} LogsFacts(refCode: string, date: Date, remain: real, lots: seq<Repayment>)
    ensures |UpdatesOf(lots, Portions(remain, lots))| == |LogsOf(refCode, date, lots, Portions(remain, lots))|
    ensures forall l :: l in LogsOf(refCode, date, lots, Portions(remain, lots)) ==>
              l.amount > 0.0 && l.refCode == refCode && l.repayDate == date &&
              l.status == "paid" && l.source == Some(PAYOUT_REASON)
    decreases |lots|
  {
    if |lots| > 0 {
      var p := Portion(remain, lots[0]);
      Unroll(refCode, date, remain, lots);
      LogsFacts(refCode, date, remain - p, lots[1..]);
    }
  }

  /** Lots with 100 and 50 remaining, daily amounts 30 and 20, and 45 to repay:
      the first lot stops at its daily amount, the second gives the 15 that is
      left. */
  lemma AllocationExample()
    ensures Portions(45.0, [Repayment("a", "HM1", Some("i1"), 0.0, None, 100.0, Some(30.0), "active", 0),
                            Repayment("b", "HM1", Some("i2"), 0.0, None, 50.0, Some(20.0), "active", 0)]) == [30.0, 15.0]
  {
  }

  /** What is still to come after position `i`, when `remain` is left. */
  ghost predicate AllocatedSoFar(refCode: string, date: Date, repayToday: real, lots: seq<Repayment>, i: nat,
                                 updates: seq<LotUpdate>, logs: seq<RepaymentLog>, remain: real)
    requires i <= |lots|
  {
    var ps0 := Portions(repayToday, lots);
    var rest := Portions(remain, lots[i..]);
    updates + UpdatesOf(lots[i..], rest) == UpdatesOf(lots, ps0) &&
    logs + LogsOf(refCode, date, lots[i..], rest) == LogsOf(refCode, date, lots, ps0) &&
    remain - Drawn(rest) == repayToday - Drawn(ps0)
  }

  /** The loop body keeps `AllocatedSoFar`, whichever branch it takes. */
  lemma AllocateStep(refCode: string, date: Date, repayToday: real, lots: seq<Repayment>, i: nat,
                     updates: seq<LotUpdate>, logs: seq<RepaymentLog>, remain: real)
    requires i < |lots|
    requires AllocatedSoFar(refCode, date, repayToday, lots, i, updates, logs, remain)
    ensures var p := Portion(remain, lots[i]);
            p <= 0.0 ==> AllocatedSoFar(refCode, date, repayToday, lots, i + 1, updates, logs, remain)
    ensures var p := Portion(remain, lots[i]);
            p > 0.0 ==> AllocatedSoFar(refCode, date, repayToday, lots, i + 1,
                          updates + [LotUpdate(lots[i].id, lots[i].principalRemaining - p)],
                          logs + [LogOf(refCode, date, lots[i], p)], remain - p)
  {
    assert lots[i..][0] == lots[i] && lots[i..][1..] == lots[i + 1..];
    Unroll(refCode, date, remain, lots[i..]);
    var p := Portion(remain, lots[i]);
    var rest := Portions(remain - p, lots[i + 1..]);
    if p > 0.0 {
      var u := [LotUpdate(lots[i].id, lots[i].principalRemaining - p)];
      var l := [LogOf(refCode, date, lots[i], p)];
      assert updates + UpdatesOf(lots[i..], Portions(remain, lots[i..])) == (updates + u) + UpdatesOf(lots[i + 1..], rest);
      assert logs + LogsOf(refCode, date, lots[i..], Portions(remain, lots[i..])) == (logs + l) + LogsOf(refCode, date, lots[i + 1..], rest);
    } else {
      assert UpdatesOf(lots[i..], Portions(remain, lots[i..])) == UpdatesOf(lots[i + 1..], rest);
      assert LogsOf(refCode, date, lots[i..], Portions(remain, lots[i..])) == LogsOf(refCode, date, lots[i + 1..], rest);
    }
  }

  /** The inner loop of the run: walk the lots, drawing on each while anything
      is left. */
  method AllocateLots(refCode: string, date: Date, repayToday: real, lots: seq<Repayment>)
    returns (updates: seq<LotUpdate>, logs: seq<RepaymentLog>, remain: real)
    ensures updates == UpdatesOf(lots, Portions(repayToday, lots))
    ensures logs == LogsOf(refCode, date, lots, Portions(repayToday, lots))
    ensures remain == repayToday - Drawn(Portions(repayToday, lots))
  {
    remain := repayToday;
    updates, logs := [], [];
    var i := 0;
    assert lots[0..] == lots;
    while i < |lots|
      invariant 0 <= i <= |lots|
      invariant AllocatedSoFar(refCode, date, repayToday, lots, i, updates, logs, remain)
    {
      if remain <= 0.0 {
        Exhausted(refCode, date, remain, lots[i..]);
        break;
      }
      var r := lots[i];
      AllocateStep(refCode, date, repayToday, lots, i, updates, logs, remain);
      var rowRem := r.principalRemaining;
      if rowRem > 0.0 {
        var cap := if HasCap(r) then r.dailyAmount.value else remain;
        var portion := Min3(rowRem, remain, cap);
        if portion > 0.0 {
          assert Portion(remain, r) == portion;
          updates := updates + [LotUpdate(r.id, rowRem - portion)];
          logs := logs + [LogOf(refCode, date, r, portion)];
          remain := remain - portion;
        }
      }
      i := i + 1;
    }
    if i == |lots| {
      assert lots[i..] == [];
    }
  }

  // ---------------------------------------------------------------------------
  // Writing one user's results, and the whole run.

  /** `update({ principal_remaining }).eq("id", u.id)`. */
  function SetRemaining(reps: seq<Repayment>, u: LotUpdate): (r: seq<Repayment>)
    ensures |r| == |reps|
    ensures forall i :: 0 <= i < |reps| ==>
              r[i] == if reps[i].id == u.id then reps[i].(principalRemaining := u.principalRemaining) else reps[i]
  {
    seq(|reps|, i requires 0 <= i < |reps| =>
      if reps[i].id == u.id then reps[i].(principalRemaining := u.principalRemaining) else reps[i])
  }

  function ApplyUpdates(reps: seq<Repayment>, us: seq<LotUpdate>): seq<Repayment>
    decreases |us|
  {
    if |us| == 0 then reps else ApplyUpdates(SetRemaining(reps, us[0]), us[1..])
  }

  /** Updates only touch the rows they name, and only set a new remaining
      principal that one of them carries. */
  lemma {:induction false} ApplyUpdatesFrame(reps: seq<Repayment>, us: seq<LotUpdate>)
    ensures |ApplyUpdates(reps, us)| == |reps|
    ensures forall i :: 0 <= i < |reps| ==>
              ApplyUpdates(reps, us)[i] == reps[i] ||
              exists u :: u in us && u.id == reps[i].id &&
                ApplyUpdates(reps, us)[i] == reps[i].(principalRemaining := u.principalRemaining)
    decreases |us|
  {
    if |us| > 0 {
      var mid := SetRemaining(reps, us[0]);
      ApplyUpdatesFrame(mid, us[1..]);
      forall i | 0 <= i < |reps|
        ensures ApplyUpdates(reps, us)[i] == reps[i] ||
                exists u :: u in us && u.id == reps[i].id &&
                  ApplyUpdates(reps, us)[i] == reps[i].(principalRemaining := u.principalRemaining)
      {
        if ApplyUpdates(reps, us)[i] != mid[i] {
          var u :| u in us[1..] && u.id == mid[i].id &&
            ApplyUpdates(reps, us)[i] == mid[i].(principalRemaining := u.principalRemaining);
          assert u in us;
        } else if mid[i] != reps[i] {
          assert us[0] in us;
        }
      }
    }
  }

  function LedgerKeyOf(refCode: string, date: Date): LedgerKey {
    LedgerKey(refCode, date, PAYOUT_REASON)
  }

  /** One user's share of the run. */
  function PayOne(date: Date, p: PayoutRow, run: Run): Run {
    var t := run.tables;
    var lots := ActiveLots(t.repayments, p.refCode);
    var ps := Portions(p.todayRepay, lots);
    var us := UpdatesOf(lots, ps);
    var ls := LogsOf(p.refCode, date, lots, ps);
    var credit := p.totalAmount > 0.0;
    Run(Tables(ApplyUpdates(t.repayments, us),
               UpsertLogs(t.logs, ls),
               if credit then t.ledger[LedgerKeyOf(p.refCode, date) := p.totalAmount] else t.ledger),
        run.logsUpserted + |ls|,
        run.repaymentsUpdated + |us|,
        run.ledgerUpserted + (if credit then 1 else 0))
  }

  /** The run over the targets, in order. */
  function PayAll(date: Date, targets: seq<PayoutRow>, run: Run): Run
    decreases |targets|
  {
    if |targets| == 0 then run
    else PayOne(date, targets[|targets| - 1], PayAll(date, targets[..|targets| - 1], run))
  }

  /** `Number(r.today_repay || 0) > 0`: payouts that repay principal. */
  function Targets(rows: seq<PayoutRow>): (ts: seq<PayoutRow>)
    ensures forall p :: p in ts <==> p in rows && p.todayRepay > 0.0
  {
    Filter(rows, (p: PayoutRow) => p.todayRepay > 0.0)
  }

  /** The ledger writes of a run: the whole payout amount under the user's
      payout key for the day, for every target with a positive amount. */
  function LedgerWrites(date: Date, targets: seq<PayoutRow>): seq<(LedgerKey, real)>
    decreases |targets|
  {
    if |targets| == 0 then []
    else
      var p := targets[|targets| - 1];
      LedgerWrites(date, targets[..|targets| - 1]) +
      (if p.totalAmount > 0.0 then [(LedgerKeyOf(p.refCode, date), p.totalAmount)] else [])
  }

  lemma {:induction false} PutAllAppend<K, V>(m: map<K, V>, a: seq<(K, V)>, b: seq<(K, V)>)
    ensures PutAll(m, a + b) == PutAll(PutAll(m, a), b)
    decreases |a|
  {
    if |a| > 0 {
      assert (a + b)[1..] == a[1..] + b;
      PutAllAppend(m[a[0].0 := a[0].1], a[1..], b);
    } else {
      assert a + b == b;
    }
  }

  /** The ledger after a run depends on the ledger and the targets alone: it is
      the old ledger with the run's payout amounts upserted. */
  lemma {:induction false} LedgerAfterRun(date: Date, targets: seq<PayoutRow>, run: Run)
    ensures PayAll(date, targets, run).tables.ledger == PutAll(run.tables.ledger, LedgerWrites(date, targets))
    decreases |targets|
  {
    if |targets| > 0 {
      var init, p := targets[..|targets| - 1], targets[|targets| - 1];
      LedgerAfterRun(date, init, run);
      var w := if p.totalAmount > 0.0 then [(LedgerKeyOf(p.refCode, date), p.totalAmount)] else [];
      PutAllAppend(run.tables.ledger, LedgerWrites(date, init), w);
    }
  }

  /** Re-posting the same day leaves the asset ledger as the first run left it:
      the credit is an upsert on (ref_code, transfer_date, reason). */
  lemma DepositLedgerIdempotent(date: Date, targets: seq<PayoutRow>, run: Run)
    ensures PayAll(date, targets, PayAll(date, targets, run)).tables.ledger ==
            PayAll(date, targets, run).tables.ledger
  {
    LedgerAfterRun(date, targets, run);
    LedgerAfterRun(date, targets, PayAll(date, targets, run));
    PutAllTwice(run.tables.ledger, LedgerWrites(date, targets));
  }

  /** A user's payout credits their holdings with the payout's whole amount
      (repayment and interest together), replacing an earlier credit for the
      same day, and moves no other user's holdings. */
  lemma PayOneCredit(date: Date, p: PayoutRow, run: Run, other: string)
    requires other != p.refCode
    ensures var l0, l1 := run.tables.ledger, PayOne(date, p, run).tables.ledger;
            var key := LedgerKeyOf(p.refCode, date);
            Balance(l1, p.refCode) ==
              Balance(l0, p.refCode) +
              (if p.totalAmount > 0.0 then p.totalAmount - (if key in l0 then l0[key] else 0.0) else 0.0) &&
            Balance(l1, other) == Balance(l0, other)
  {
    var key := LedgerKeyOf(p.refCode, date);
    if p.totalAmount > 0.0 {
      BalanceAfterPut(run.tables.ledger, key, p.totalAmount);
      BalanceOtherUser(run.tables.ledger, key, p.totalAmount, other);
    }
  }

  /** No run sets a lot's remaining principal below zero or lower than it was,
      and rows that no draw names are left as they were. */
  lemma PayOneRepayments(date: Date, p: PayoutRow, run: Run)
    ensures var r0, r1 := run.tables.repayments, PayOne(date, p, run).tables.repayments;
            |r1| == |r0| &&
            forall i :: 0 <= i < |r0| ==>
              r1[i] == r0[i] ||
              (r1[i] == r0[i].(principalRemaining := r1[i].principalRemaining) &&
               r1[i].principalRemaining >= 0.0 &&
               exists lot :: lot in r0 && IsActiveLotOf(lot, p.refCode) && lot.id == r0[i].id &&
                 r1[i].principalRemaining < lot.principalRemaining)
  {
    var t := run.tables;
    var lots := ActiveLots(t.repayments, p.refCode);
    var us := UpdatesOf(lots, Portions(p.todayRepay, lots));
    UpdatesFacts(p.todayRepay, lots);
    ApplyUpdatesFrame(t.repayments, us);
    var r0, r1 := t.repayments, PayOne(date, p, run).tables.repayments;
    forall i | 0 <= i < |r0| && r1[i] != r0[i]
      ensures r1[i] == r0[i].(principalRemaining := r1[i].principalRemaining) &&
              r1[i].principalRemaining >= 0.0 &&
              exists lot :: lot in r0 && IsActiveLotOf(lot, p.refCode) && lot.id == r0[i].id &&
                r1[i].principalRemaining < lot.principalRemaining
    {
      var u :| u in us && u.id == r0[i].id && r1[i] == r0[i].(principalRemaining := u.principalRemaining);
      var j :| Lowers(lots, u, j);
      assert lots[j] in lots;
    }
  }
  /** The deposit run is not idempotent on principal: a second run of the same
      day draws on the lot again (the repayment log upsert is keyed, the
      principal update is not). */
  lemma SecondRunDrawsAgain()
    ensures var lot := Repayment("a", "HM1", Some("i1"), 0.0, None, 100.0, Some(30.0), "active", 0);
            var p := PayoutRow("HM1", 30.0, 40.0);
            var once := PayOne(20250101, p, Run(Tables([lot], [], map[]), 0, 0, 0));
            var twice := PayOne(20250101, p, once);
            once.tables.repayments == [lot.(principalRemaining := 70.0)] &&
            twice.tables.repayments == [lot.(principalRemaining := 40.0)] &&
            twice.tables.ledger == once.tables.ledger
  {
    var lot := Repayment("a", "HM1", Some("i1"), 0.0, None, 100.0, Some(30.0), "active", 0);
    var p := PayoutRow("HM1", 30.0, 40.0);
    var once := PayOne(20250101, p, Run(Tables([lot], [], map[]), 0, 0, 0));
    PayOneDailyDraw(20250101, lot, p, Run(Tables([lot], [], map[]), 0, 0, 0));
    PayOneDailyDraw(20250101, lot.(principalRemaining := 70.0), p, once);
  }

  /** A user with a single lot whose daily amount fits both the day's repayment
      and the lot's principal has exactly the daily amount drawn. */
  lemma PayOneDailyDraw(date: Date, lot: Repayment, p: PayoutRow, run: Run)
    requires run.tables.repayments == [lot] && IsActiveLotOf(lot, p.refCode)
    requires HasCap(lot) && 0.0 < lot.dailyAmount.value <= p.todayRepay
    requires lot.dailyAmount.value <= lot.principalRemaining
    ensures PayOne(date, p, run).tables.repayments ==
            [lot.(principalRemaining := lot.principalRemaining - lot.dailyAmount.value)]
  {
    SingleLot(lot);
    var u := OneLotUpdate(lot, p.todayRepay);
    ApplyOne(lot, u);
    var lots := ActiveLots(run.tables.repayments, p.refCode);
    assert lots == [lot];
    var us := UpdatesOf(lots, Portions(p.todayRepay, lots));
    assert us == [u];
    assert PayOne(date, p, run).tables.repayments == ApplyUpdates(run.tables.repayments, us);
  }

  lemma OneLotUpdate(lot: Repayment, repay: real) returns (u: LotUpdate)
    requires HasCap(lot) && 0.0 < lot.dailyAmount.value <= repay
    requires lot.dailyAmount.value <= lot.principalRemaining
    ensures u == LotUpdate(lot.id, lot.principalRemaining - lot.dailyAmount.value)
    ensures UpdatesOf([lot], Portions(repay, [lot])) == [u]
  {
    var d := lot.dailyAmount.value;
    u := LotUpdate(lot.id, lot.principalRemaining - d);
    assert Portion(repay, lot) == d;
    assert [lot][1..] == [];
    assert Portions(repay, [lot]) == [d] + Portions(repay - d, []);
    assert UpdatesOf([lot], [d]) == [u] + UpdatesOf([], []);
  }

  lemma ApplyOne(lot: Repayment, u: LotUpdate)
    requires u.id == lot.id
    ensures ApplyUpdates([lot], [u]) == [lot.(principalRemaining := u.principalRemaining)]
  {
    var r := SetRemaining([lot], u);
    assert |r| == 1 && r[0] == lot.(principalRemaining := u.principalRemaining);
    assert r == [lot.(principalRemaining := u.principalRemaining)];
    assert [u][1..] == [];
  }

  lemma SingleLot(lot: Repayment)
    requires IsActiveLotOf(lot, lot.refCode)
    ensures ActiveLots([lot], lot.refCode) == [lot]
  {
    assert [lot][..0] == [];
    assert Filter([lot], r => IsActiveLotOf(r, lot.refCode)) == [lot];
    assert OrderByDaily([lot]) == [lot];
  }

  // ---------------------------------------------------------------------------
  // The route.

  /** The day's rows of payout_transfers, each once, in some order. */
  predicate DayRows(transfers: PayoutTable, date: Date, rows: seq<PayoutRow>) {
    (forall i :: 0 <= i < |rows| ==>
       var k := TransferKey(rows[i].refCode, date);
       k in transfers && rows[i] == PayoutRow(k.refCode, transfers[k].todayRepay, transfers[k].totalAmount)) &&
    (forall i, j :: 0 <= i < j < |rows| ==> rows[i].refCode != rows[j].refCode) &&
    (forall k :: k in transfers && k.date == date ==> exists i :: 0 <= i < |rows| && rows[i].refCode == k.refCode)
  }

  /** `select("ref_code, today_repay, total_amount").eq("transfer_date", date)`:
      the rows come back in an order the store chooses. */
  method SelectDay(transfers: PayoutTable, date: Date) returns (rows: seq<PayoutRow>)
    ensures DayRows(transfers, date, rows)
  {
    var left := set k | k in transfers && k.date == date;
    rows := [];
    while left != {}
      invariant left <= transfers.Keys
      invariant forall k :: k in left ==> k.date == date
      invariant forall i :: 0 <= i < |rows| ==>
                  var k := TransferKey(rows[i].refCode, date);
                  k in transfers && k !in left &&
                  rows[i] == PayoutRow(k.refCode, transfers[k].todayRepay, transfers[k].totalAmount)
      invariant forall i, j :: 0 <= i < j < |rows| ==> rows[i].refCode != rows[j].refCode
      invariant forall k :: k in transfers && k.date == date ==>
                  k in left || exists i :: 0 <= i < |rows| && rows[i].refCode == k.refCode
      decreases |left|
    {
      var k :| k in left;
      assert k == TransferKey(k.refCode, date);
      ghost var before := rows;
      rows := rows + [PayoutRow(k.refCode, transfers[k].todayRepay, transfers[k].totalAmount)];
      forall k' | k' in transfers && k'.date == date && k' !in left - {k}
        ensures exists i :: 0 <= i < |rows| && rows[i].refCode == k'.refCode
      {
        if k' == k {
          assert rows[|before|].refCode == k'.refCode;
        } else {
          var i :| 0 <= i < |before| && before[i].refCode == k'.refCode;
          assert rows[i] == before[i];
        }
      }
      left := left - {k};
    }
  }

  /** One pass of the route's loop: allocate, update the lots, upsert the
      logs, credit the ledger. */
  method PayRecipient(date: Date, p: PayoutRow, run: Run) returns (next: Run)
    ensures next == PayOne(date, p, run)
  {
    var t := run.tables;
    var lots := ActiveLots(t.repayments, p.refCode);
    var updates, logs, _ := AllocateLots(p.refCode, date, p.todayRepay, lots);
    var reps := ApplyUpdates(t.repayments, updates);
    var logTable := UpsertLogs(t.logs, logs);
    var credit := p.totalAmount > 0.0;
    var ledger := if credit then t.ledger[LedgerKeyOf(p.refCode, date) := p.totalAmount] else t.ledger;
    next := Run(Tables(reps, logTable, ledger),
                run.logsUpserted + |logs|, run.repaymentsUpdated + |updates|,
                run.ledgerUpserted + (if credit then 1 else 0));
    ghost var one := PayOne(date, p, run);
    assert one.tables == Tables(reps, logTable, ledger);
    assert one.logsUpserted == next.logsUpserted && one.repaymentsUpdated == next.repaymentsUpdated;
  }

  /** The route's loop over the targets. */
  method PayTargets(date: Date, targets: seq<PayoutRow>, t0: Tables) returns (run: Run)
    ensures run == PayAll(date, targets, Run(t0, 0, 0, 0))
  {
    run := Run(t0, 0, 0, 0);
    for i := 0 to |targets|
      invariant run == PayAll(date, targets[..i], Run(t0, 0, 0, 0))
    {
      assert targets[..i + 1][..i] == targets[..i];
      run := PayRecipient(date, targets[i], run);
    }
    assert targets[..|targets|] == targets;
  }

  /** `POST /api/admin/payouts/deposit` with body `{ date }`. */
  method Deposit(dateText: string, transfers: PayoutTable, t0: Tables)
    returns (result: Result<DepositReport>, t1: Tables)
    ensures !IsIsoDate(dateText) ==> result.Err? && result.status == 400 && t1 == t0
    ensures IsIsoDate(dateText) ==>
              exists rows :: DayRows(transfers, DateOf(dateText), rows) &&
                var run := PayAll(DateOf(dateText), Targets(rows), Run(t0, 0, 0, 0));
                t1 == run.tables &&
                result == Ok(DepositReport(run.logsUpserted, run.repaymentsUpdated, run.ledgerUpserted, dateText))
  {
    if !IsIsoDate(dateText) {
      return Err(400, "date(YYYY-MM-DD) 필요"), t0;
    }
    var date := DateOf(dateText);
    var rows := SelectDay(transfers, date);
    var run := PayTargets(date, Targets(rows), t0);
    t1 := run.tables;
    result := Ok(DepositReport(run.logsUpserted, run.repaymentsUpdated, run.ledgerUpserted, dateText));
  }
}
