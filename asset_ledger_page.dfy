/** The admin asset ledger page (`src/app/admin/asset-ledger/page.tsx`): a
    user's asset_ledger rows, searched by date, label or amount, with the
    money in, the money out and the balance of the rows shown. */
module AssetLedgerPage {
  import opened Common
  import opened Folds

  /** A row as shown: the date text, the reason, the amount and the amount as
      `String(amount)` prints it (number formatting is not modelled, so the
      text is part of the row). */
  datatype LedgerView = LedgerView(transferDate: string, reason: string, amount: real, amountText: string)

  /** `reasonLabel`. */
  function ReasonLabel(r: string): (text: string)
    ensures r == "payout" ==> text == "하루머니 입금"
    ensures r == "cashout" ==> text == "현금교환 출금"
    ensures r == "topup" ==> text == "보충 출금"
    ensures r != "payout" && r != "cashout" && r != "topup" ==> text == "자산 변동"
  {
    if r == "payout" then "하루머니 입금"
    else if r == "cashout" then "현금교환 출금"
    else if r == "topup" then "보충 출금"
    else "자산 변동"
  }

  /** The row matches the search key. */
  predicate Matches(r: LedgerView, key: string) {
    Contains(Lower(r.transferDate), key) || Contains(Lower(ReasonLabel(r.reason)), key) || Contains(r.amountText, key)
  }

  function MatchesKey(key: string): LedgerView -> bool {
    (r: LedgerView) => Matches(r, key)
  }

  /** `filtered`: the key is the query trimmed and lower-cased; a blank key
      keeps every row. */
  function Filtered(rows: seq<LedgerView>, q: string): (f: seq<LedgerView>)
    ensures Lower(Trim(q)) == "" ==> f == rows
    ensures Lower(Trim(q)) != "" ==> forall r :: r in f <==> r in rows && Matches(r, Lower(Trim(q)))
    ensures Lower(Trim(q)) != "" ==>
              forall r :: multiset(f)[r] == if Matches(r, Lower(Trim(q))) then multiset(rows)[r] else 0
  {
    var key := Lower(Trim(q));
    if key == "" then rows
    else
      var f := Filter(rows, MatchesKey(key));
      assert forall r :: r in f <==> r in rows && Matches(r, key) by {
        forall r ensures MatchesKey(key)(r) == Matches(r, key) {
        }
      }
      assert forall r :: multiset(f)[r] == if Matches(r, key) then multiset(rows)[r] else 0 by {
        forall r ensures multiset(f)[r] == if Matches(r, key) then multiset(rows)[r] else 0 {
          FilterCount(rows, MatchesKey(key), r);
        }
      }
      f
  }

  /** The search keeps the order of the rows: searching two runs of rows is
      searching each and joining the results. */
  lemma FilteredAppend(a: seq<LedgerView>, b: seq<LedgerView>, q: string)
    ensures Filtered(a + b, q) == Filtered(a, q) + Filtered(b, q)
  {
    var key := Lower(Trim(q));
    if key != "" {
      FilterAppend(a, b, MatchesKey(key));
    }
  }

  function Amount(r: LedgerView): real { r.amount }
  function AbsAmount(r: LedgerView): real { if r.amount < 0.0 then -r.amount else r.amount }

  function Positive(): LedgerView -> bool { (r: LedgerView) => r.amount > 0.0 }
  function Negative(): LedgerView -> bool { (r: LedgerView) => r.amount < 0.0 }

  datatype Totals = Totals(totalIn: real, totalOut: real, balance: real)

  /** `totalIn`, `totalOut` and `balance` over the shown rows. */
  function TotalsOf(f: seq<LedgerView>): Totals {
    var totalIn := Sum(Filter(f, Positive()), Amount);
    var totalOut := Sum(Filter(f, Negative()), AbsAmount);
    Totals(totalIn, totalOut, totalIn - totalOut)
  }

  function InPart(r: LedgerView): real { if r.amount > 0.0 then r.amount else 0.0 }
  function OutPart(r: LedgerView): real { if r.amount < 0.0 then -r.amount else 0.0 }

  lemma InTotal(f: seq<LedgerView>)
    ensures TotalsOf(f).totalIn == Sum(f, InPart)
  {
    forall x ensures InPart(x) == (if Positive()(x) then Amount(x) else 0.0) {
    }
    SumFilter(f, Positive(), Amount, InPart);
  }

  lemma OutTotal(f: seq<LedgerView>)
    ensures TotalsOf(f).totalOut == Sum(f, OutPart)
  {
    forall x ensures OutPart(x) == (if Negative()(x) then AbsAmount(x) else 0.0) {
    }
    SumFilter(f, Negative(), AbsAmount, OutPart);
  }

  /** Both totals are never negative, and the balance is the plain sum of the
      shown amounts. */
  lemma TotalsFacts(f: seq<LedgerView>)
    ensures TotalsOf(f).totalIn >= 0.0 && TotalsOf(f).totalOut >= 0.0
    ensures TotalsOf(f).balance == Sum(f, Amount)
  {
    var t := TotalsOf(f);
    InTotal(f);
    OutTotal(f);
    SumNonneg(f, InPart);
    SumNonneg(f, OutPart);
    SumDiff(f, InPart, OutPart, Amount);
  }
}
