/** The datastore tables the payout engine shares, each keyed by the unique
    key the code upserts on. A table with a unique key is a `map` from that key;
    an upsert on the key is a map update. */
module Store {
  import opened Common
  import opened Folds

  /** payout_transfers: one row per (ref_code, transfer_date). */
  datatype TransferKey = TransferKey(refCode: string, date: Date)

  datatype PayoutTransfer = PayoutTransfer(
    userName: Option<string>,
    todayRepay: real,
    todayInterest: real,
    totalAmount: real,
    status: Option<string>)

  type PayoutTable = map<TransferKey, PayoutTransfer>

  /** A payout row as the payout routes build it, before it is stored. */
  datatype TransferRow = TransferRow(
    refCode: string,
    userName: Option<string>,
    date: Date,
    todayRepay: real,
    todayInterest: real,
    totalAmount: real,
    status: string)

  function TransferKeyOf(r: TransferRow): TransferKey {
    TransferKey(r.refCode, r.date)
  }

  function StoredTransfer(r: TransferRow): PayoutTransfer {
    PayoutTransfer(r.userName, r.todayRepay, r.todayInterest, r.totalAmount, Some(r.status))
  }

  function RowRepay(r: TransferRow): real { r.todayRepay }
  function RowInterest(r: TransferRow): real { r.todayInterest }
  function RowTotal(r: TransferRow): real { r.totalAmount }

  /** `rows` has a row for `rc`. */
  predicate RowFor(rows: seq<TransferRow>, rc: string) {
    exists i :: 0 <= i < |rows| && rows[i].refCode == rc
  }

  /** The `{ repay_sum, interest_sum, total_sum }` a payout route reports. */
  datatype Sums = Sums(repaySum: real, interestSum: real, totalSum: real)

  /** The three `reduce` sums over the rows' columns. */
  function SumsOf(rows: seq<TransferRow>): Sums {
    Sums(Sum(rows, RowRepay), Sum(rows, RowInterest), Sum(rows, RowTotal))
  }

  /** When every row's total is its repayment plus its interest, so are the
      sums. */
  lemma SumsBalanced(rows: seq<TransferRow>)
    requires forall i :: 0 <= i < |rows| ==> rows[i].totalAmount == rows[i].todayRepay + rows[i].todayInterest
    ensures SumsOf(rows).totalSum == SumsOf(rows).repaySum + SumsOf(rows).interestSum
  {
    SumLinear(rows, RowRepay, RowInterest, RowTotal);
  }

  /** The upsert batch of payout rows keyed (ref_code, transfer_date). */
  function TransferWrites(rows: seq<TransferRow>): (w: seq<(TransferKey, PayoutTransfer)>)
    ensures |w| == |rows|
    ensures forall i :: 0 <= i < |rows| ==> w[i] == (TransferKeyOf(rows[i]), StoredTransfer(rows[i]))
  {
    seq(|rows|, i requires 0 <= i < |rows| => (TransferKeyOf(rows[i]), StoredTransfer(rows[i])))
  }

  /** The elements of a set in an order the store chooses. */
  method Enumerate<K>(s: set<K>) returns (ks: seq<K>)
    ensures forall k :: k in ks <==> k in s
    ensures forall i :: 0 <= i < |ks| ==> ks[i] in s
    ensures forall i, j :: 0 <= i < j < |ks| ==> ks[i] != ks[j]
  {
    var left := s;
    ks := [];
    while left != {}
      invariant left <= s
      invariant forall k :: k in ks <==> k in s && k !in left
      invariant forall i :: 0 <= i < |ks| ==> ks[i] in s
      invariant forall i, j :: 0 <= i < j < |ks| ==> ks[i] != ks[j]
      decreases |left|
    {
      var k :| k in left;
      ks := ks + [k];
      left := left - {k};
    }
  }

  /** A row of `investments`: one lot of invested principal. */
  datatype Investment = Investment(
    id: string,
    refCode: string,
    amountUsdt: real,
    amount: real,
    investDate: Option<Date>,
    maturityDate: Option<Date>,
    createdDay: Date)

  /** The lot is running on `date`: both dates are set and invest_date <= date <=
      maturity_date. */
  predicate ActiveOn(inv: Investment, date: Date) {
    inv.investDate.Some? && inv.maturityDate.Some? &&
    inv.investDate.value <= date <= inv.maturityDate.value
  }

  function ActiveAt(date: Date): Investment -> bool {
    inv => ActiveOn(inv, date)
  }

  function InvOwner(inv: Investment): string { inv.refCode }
  function InvPrincipal(inv: Investment): real { inv.amountUsdt }

  /** The stored row an upsert that sends no user_name leaves behind: the name
      already stored under the key, if any, and the row's amounts and status. */
  function Unnamed(table: PayoutTable, r: TransferRow): PayoutTransfer {
    var k := TransferKeyOf(r);
    PayoutTransfer(if k in table then table[k].userName else None,
                   r.todayRepay, r.todayInterest, r.totalAmount, Some(r.status))
  }

  function UnnamedWrites(table: PayoutTable, rows: seq<TransferRow>): (w: seq<(TransferKey, PayoutTransfer)>)
    ensures |w| == |rows|
    ensures forall i :: 0 <= i < |rows| ==> w[i] == (TransferKeyOf(rows[i]), Unnamed(table, rows[i]))
  {
    seq(|rows|, i requires 0 <= i < |rows| => (TransferKeyOf(rows[i]), Unnamed(table, rows[i])))
  }

  /** A row of `repayments`: a principal repayment lot of a user. */
  datatype Repayment = Repayment(
    id: string,
    refCode: string,
    investmentId: Option<string>,
    amount: real,
    repayDate: Option<Date>,
    principalRemaining: real,
    dailyAmount: Option<real>,
    status: string,
    createdDay: Date)

  /** A row of `users`, with the referral links the payout code follows. */
  datatype UserRow = UserRow(refCode: string, name: Option<string>, refBy: Option<string>, centerId: Option<string>)

  /** A JavaScript truthiness test on a nullable text: null and "" are false. */
  predicate Truthy(o: Option<string>) { o.Some? && o.value != "" }

  /** The maps keyed by ref_code that `users.forEach(u => m.set(u.ref_code, ...))`
      builds: the last row of a ref_code wins. */
  function Directory(users: seq<UserRow>): (d: map<string, UserRow>)
    ensures forall rc :: rc in d <==> exists i :: 0 <= i < |users| && users[i].refCode == rc
    ensures forall rc :: rc in d ==> d[rc] in users && d[rc].refCode == rc
  {
    if |users| == 0 then map[]
    else
      var init, last := users[..|users| - 1], users[|users| - 1];
      var d := Directory(init)[last.refCode := last];
      assert forall rc :: rc in d <==> exists i :: 0 <= i < |users| && users[i].refCode == rc by {
        forall rc ensures rc in d <==> exists i :: 0 <= i < |users| && users[i].refCode == rc {
          if rc in Directory(init) && rc != last.refCode {
            var i :| 0 <= i < |init| && init[i].refCode == rc;
            assert users[i] == init[i];
          }
          if exists i :: 0 <= i < |users| && users[i].refCode == rc {
            var i :| 0 <= i < |users| && users[i].refCode == rc;
            if i < |init| { assert init[i] == users[i]; }
          }
        }
      }
      d
  }

  /** The last row of a ref_code is the one the map keeps. */
  lemma {:induction false} DirectoryLast(users: seq<UserRow>, i: nat)
    requires i < |users|
    requires forall j :: i < j < |users| ==> users[j].refCode != users[i].refCode
    ensures users[i].refCode in Directory(users) && Directory(users)[users[i].refCode] == users[i]
  {
    if i < |users| - 1 {
      var init := users[..|users| - 1];
      assert init[i] == users[i];
      forall j | i < j < |init| ensures init[j].refCode != init[i].refCode {
        assert init[j] == users[j];
      }
      DirectoryLast(init, i);
    }
  }

  /** `nameMap.get(rc) ?? null`. */
  function NameOf(dir: map<string, UserRow>, rc: string): Option<string> {
    if rc in dir then dir[rc].name else None
  }

  /** asset_ledger: one amount per (ref_code, transfer_date, reason). */
  datatype LedgerKey = LedgerKey(refCode: string, date: Date, reason: string)

  type Ledger = map<LedgerKey, real>

  /** repayment_logs. Its unique key is (ref_code, investment_id, repay_date,
      source); a row whose investment_id or source is null never conflicts, so
      the table is a sequence and the key is checked on upsert. */
  datatype RepaymentLog = RepaymentLog(
    refCode: string,
    investmentId: Option<string>,
    amount: real,
    repayDate: Date,
    status: string,
    source: Option<string>)

  /** Two rows collide on the unique key (nulls never collide). */
  predicate SameLogKey(a: RepaymentLog, b: RepaymentLog) {
    a.refCode == b.refCode && a.repayDate == b.repayDate &&
    a.investmentId.Some? && a.investmentId == b.investmentId &&
    a.source.Some? && a.source == b.source
  }

  /** The unique constraint holds. */
  predicate LogKeysUnique(logs: seq<RepaymentLog>) {
    forall i, j :: 0 <= i < j < |logs| ==> !SameLogKey(logs[i], logs[j])
  }

  /** Index of the row `row` would collide with, if any. */
  function FindLog(logs: seq<RepaymentLog>, row: RepaymentLog): (r: Option<nat>)
    ensures r.Some? ==> r.value < |logs| && SameLogKey(logs[r.value], row)
    ensures r.None? ==> forall i :: 0 <= i < |logs| ==> !SameLogKey(logs[i], row)
  {
    if |logs| == 0 then None
    else if SameLogKey(logs[|logs| - 1], row) then Some(|logs| - 1)
    else FindLog(logs[..|logs| - 1], row)
  }

  /** Upsert of one log row: replace the colliding row, else append. */
  function UpsertLog(logs: seq<RepaymentLog>, row: RepaymentLog): seq<RepaymentLog> {
    match FindLog(logs, row)
    case Some(i) => logs[i := row]
    case None => logs + [row]
  }

  /** An upsert keeps the unique constraint and leaves exactly one row under the
      new row's key, holding the new row. */
  lemma UpsertLogKeeps(logs: seq<RepaymentLog>, row: RepaymentLog)
    requires LogKeysUnique(logs)
    ensures LogKeysUnique(UpsertLog(logs, row))
    ensures row in UpsertLog(logs, row)
    ensures forall i :: 0 <= i < |UpsertLog(logs, row)| && SameLogKey(UpsertLog(logs, row)[i], row) ==>
              UpsertLog(logs, row)[i] == row
  {
    match FindLog(logs, row)
    case Some(i) =>
      assert UpsertLog(logs, row)[i] == row;
    case None =>
      assert UpsertLog(logs, row)[|logs|] == row;
  }

  /** Upsert of a batch, row by row. */
  function UpsertLogs(logs: seq<RepaymentLog>, rows: seq<RepaymentLog>): seq<RepaymentLog>
    decreases |rows|
  {
    if |rows| == 0 then logs else UpsertLogs(UpsertLog(logs, rows[0]), rows[1..])
  }

  /** Sum of the values of a map (the order of addition does not matter). */
  ghost function MapSum<K>(m: map<K, real>): real
    decreases |m|
  {
    if |m| == 0 then 0.0
    else
      var k :| k in m; m[k] + MapSum(m - {k})
  }

  /** The entry the definition takes out first. */
  lemma MapSumUnfold<K>(m: map<K, real>) returns (j: K)
    requires |m| > 0
    ensures j in m && MapSum(m) == m[j] + MapSum(m - {j})
  {
    j :| j in m && MapSum(m) == m[j] + MapSum(m - {j});
  }

  /** Any entry may be taken out first. */
  lemma {:induction false} MapSumPick<K>(m: map<K, real>, k: K)
    requires k in m
    ensures MapSum(m) == m[k] + MapSum(m - {k})
    decreases |m|
  {
    var j := MapSumUnfold(m);
    if j != k {
      var mj, mk := m - {j}, m - {k};
      assert k in mj && j in mk;
      assert |mj| < |m| && |mk| < |m|;
      MapSumPick(mj, k);
      MapSumPick(mk, j);
      assert mj - {k} == mk - {j};
      assert mj[k] == m[k] && mk[j] == m[j];
    }
  }

  /** Setting one key changes the sum by the difference. */
  lemma MapSumUpdate<K>(m: map<K, real>, k: K, v: real)
    ensures MapSum(m[k := v]) == MapSum(m) - (if k in m then m[k] else 0.0) + v
  {
    MapSumPick(m[k := v], k);
    assert m[k := v] - {k} == m - {k};
    if k in m {
      MapSumPick(m, k);
    } else {
      assert m - {k} == m;
    }
  }

  /** A user's ledger entries. */
  function EntriesOf(ledger: Ledger, refCode: string): map<LedgerKey, real> {
    map k | k in ledger && k.refCode == refCode :: ledger[k]
  }

  /** The user's holdings: the sum of all of their ledger amounts. */
  ghost function Balance(ledger: Ledger, refCode: string): real {
    MapSum(EntriesOf(ledger, refCode))
  }

  /** Writing `v` under one of the user's keys moves the balance by `v` minus
      what the key held. */
  lemma BalanceAfterPut(ledger: Ledger, key: LedgerKey, v: real)
    ensures Balance(ledger[key := v], key.refCode) ==
            Balance(ledger, key.refCode) - (if key in ledger then ledger[key] else 0.0) + v
  {
    var e := EntriesOf(ledger, key.refCode);
    assert EntriesOf(ledger[key := v], key.refCode) == e[key := v];
    MapSumUpdate(e, key, v);
  }

  /** Writing a key of another user does not move this user's balance. */
  lemma BalanceOtherUser(ledger: Ledger, key: LedgerKey, v: real, refCode: string)
    requires key.refCode != refCode
    ensures Balance(ledger[key := v], refCode) == Balance(ledger, refCode)
  {
    assert EntriesOf(ledger[key := v], refCode) == EntriesOf(ledger, refCode);
  }

  /** A batch of key/value upserts, applied in order. */
  function PutAll<K, V>(m: map<K, V>, kvs: seq<(K, V)>): map<K, V>
    decreases |kvs|
  {
    if |kvs| == 0 then m else PutAll(m[kvs[0].0 := kvs[0].1], kvs[1..])
  }

  /** A batch of upserts overrides the old table with what the batch writes. */
  lemma {:induction false} PutAllOverride<K, V>(m: map<K, V>, kvs: seq<(K, V)>)
    ensures PutAll(m, kvs) == m + PutAll(map[], kvs)
    decreases |kvs|
  {
    if |kvs| > 0 {
      var k, v := kvs[0].0, kvs[0].1;
      PutAllOverride(m[k := v], kvs[1..]);
      PutAllOverride(map[k := v], kvs[1..]);
      assert m[k := v] == m + map[k := v];
    }
  }

  /** Replaying a batch of upserts is a no-op: replace-upserts are idempotent. */
  lemma PutAllTwice<K, V>(m: map<K, V>, kvs: seq<(K, V)>)
    ensures PutAll(PutAll(m, kvs), kvs) == PutAll(m, kvs)
  {
    PutAllOverride(m, kvs);
    PutAllOverride(PutAll(m, kvs), kvs);
    var w := PutAll(map[], kvs);
    assert (m + w) + w == m + w;
  }

  /** A key the batch does not write keeps its value. */
  lemma {:induction false} PutAllMisses<K, V>(m: map<K, V>, kvs: seq<(K, V)>, k: K)
    requires k in m
    requires forall j :: 0 <= j < |kvs| ==> kvs[j].0 != k
    ensures k in PutAll(m, kvs) && PutAll(m, kvs)[k] == m[k]
    decreases |kvs|
  {
    if |kvs| > 0 {
      PutAllMisses(m[kvs[0].0 := kvs[0].1], kvs[1..], k);
    }
  }

  /** A write that no later write in the batch overrides lands as written. */
  lemma {:induction false} PutAllLands<K, V>(m: map<K, V>, kvs: seq<(K, V)>, i: nat)
    requires i < |kvs|
    requires forall j :: i < j < |kvs| ==> kvs[j].0 != kvs[i].0
    ensures kvs[i].0 in PutAll(m, kvs) && PutAll(m, kvs)[kvs[i].0] == kvs[i].1
    decreases |kvs|
  {
    var m1 := m[kvs[0].0 := kvs[0].1];
    if i == 0 {
      forall j | 0 <= j < |kvs[1..]| ensures kvs[1..][j].0 != kvs[0].0 {
        assert kvs[1..][j] == kvs[j + 1];
      }
      PutAllMisses(m1, kvs[1..], kvs[0].0);
    } else {
      forall j | i - 1 < j < |kvs[1..]| ensures kvs[1..][j].0 != kvs[1..][i - 1].0 {
        assert kvs[1..][j] == kvs[j + 1];
      }
      PutAllLands(m1, kvs[1..], i - 1);
    }
  }

  /** Some row of the batch is stored under `k`. */
  predicate WritesKey(rows: seq<TransferRow>, k: TransferKey) {
    exists i :: 0 <= i < |rows| && TransferKeyOf(rows[i]) == k
  }

  /** Upserting rows with distinct keys and no user_name: each row lands with
      its amounts and the name stored before, every other stored row is left
      alone, and repeating the upsert changes nothing. */
  lemma UnnamedUpsertFacts(t: PayoutTable, rows: seq<TransferRow>)
    requires forall i, j :: 0 <= i < j < |rows| ==> TransferKeyOf(rows[i]) != TransferKeyOf(rows[j])
    ensures var t1 := PutAll(t, UnnamedWrites(t, rows));
            (forall i :: 0 <= i < |rows| ==>
               TransferKeyOf(rows[i]) in t1 && t1[TransferKeyOf(rows[i])] == Unnamed(t, rows[i])) &&
            (forall k :: k in t && !WritesKey(rows, k) ==> k in t1 && t1[k] == t[k]) &&
            PutAll(t1, UnnamedWrites(t1, rows)) == t1
  {
    var w := UnnamedWrites(t, rows);
    var t1 := PutAll(t, w);
    forall i | 0 <= i < |rows|
      ensures TransferKeyOf(rows[i]) in t1 && t1[TransferKeyOf(rows[i])] == Unnamed(t, rows[i])
    {
      PutAllLands(t, w, i);
    }
    forall k | k in t && !WritesKey(rows, k)
      ensures k in t1 && t1[k] == t[k]
    {
      forall j | 0 <= j < |w| ensures w[j].0 != k {
        assert w[j].0 == TransferKeyOf(rows[j]);
      }
      PutAllMisses(t, w, k);
    }
    assert UnnamedWrites(t1, rows) == w;
    PutAllTwice(t, w);
  }
}
