/** The cash exchange request (`handleSubmit` in
    `src/app/home/swap/SwapClient.tsx`): after the guards, a pending
    cash_exchanges row is recorded and the amount is taken off the user's
    holdings through the day's "cashout" row of asset_ledger, which
    accumulates every cash-out of the day. */
module Swap {
  import opened Common
  import opened Store

  const CASHOUT: string := "cashout"

  /** A row of cash_exchanges. */
  datatype CashExchange = CashExchange(
    refCode: string,
    walletAddress: string,
    amountUsdt: real,
    status: string,
    requestDate: Date,
    memo: string)

  datatype SwapOutcome =
    | NeedWallet       // no connected wallet
    | NeedAmount       // amount missing, zero, negative or not a number
    | OverBalance      // more than the balance passed in
    | Failed(message: string)
    | Requested

  function CashoutKey(rc: string, today: Date): LedgerKey { LedgerKey(rc, today, CASHOUT) }

  /** The ledger write of a request. */
  function Cashout(ledger: Ledger, rc: string, today: Date, amt: real): Ledger {
    var key := CashoutKey(rc, today);
    ledger[key := (if key in ledger then ledger[key] else 0.0) - amt]
  }

  /** `handleSubmit`. `amount` and `balance` are the numbers read from the
      form and the query string (None when they are not a number); `refCode`
      is the ref_code of the user found for the wallet; `today` is the Korean
      day. */
  method HandleSubmit(address: Option<string>, amount: Option<real>, balance: Option<real>, refCode: Option<string>,
                      today: Date, exchanges: seq<CashExchange>, ledger: Ledger)
    returns (outcome: SwapOutcome, exchanges': seq<CashExchange>, ledger': Ledger)
    ensures outcome != Requested ==> exchanges' == exchanges && ledger' == ledger
    ensures !Truthy(address) ==> outcome == NeedWallet
    ensures Truthy(address) && (amount.None? || amount.value <= 0.0) ==> outcome == NeedAmount
    ensures Truthy(address) && amount.Some? && amount.value > 0.0 && balance.Some? && amount.value > balance.value ==>
              outcome == OverBalance
    ensures (Truthy(address) && amount.Some? && amount.value > 0.0 && !(balance.Some? && amount.value > balance.value) &&
             !Truthy(refCode)) ==> outcome.Failed?
    ensures outcome == Requested <==>
              Truthy(address) && amount.Some? && amount.value > 0.0 &&
              !(balance.Some? && amount.value > balance.value) && Truthy(refCode)
    ensures outcome == Requested ==>
              exchanges' == exchanges + [CashExchange(refCode.value, Lower(address.value), amount.value, "pending", today, "사용자 신청")] &&
              ledger' == Cashout(ledger, refCode.value, today, amount.value)
  {
    exchanges', ledger' := exchanges, ledger;
    if !Truthy(address) {
      return NeedWallet, exchanges, ledger;
    }
    if amount.None? || amount.value <= 0.0 {
      return NeedAmount, exchanges, ledger;
    }
    var amt := amount.value;
    if balance.Some? && amt > balance.value {
      return OverBalance, exchanges, ledger;
    }
    if !Truthy(refCode) {
      return Failed("ref_code를 찾을 수 없습니다."), exchanges, ledger;
    }
    var rc := refCode.value;
    exchanges' := exchanges + [CashExchange(rc, Lower(address.value), amt, "pending", today, "사용자 신청")];
    var key := LedgerKey(rc, today, CASHOUT);
    var exist := if key in ledger then ledger[key] else 0.0;
    var newAmount := exist - amt;
    ledger' := ledger[key := newAmount];
    outcome := Requested;
  }

  /** A cash-out takes exactly its amount off the user's holdings and leaves
      every other user's holdings alone. */
  lemma CashoutBalance(ledger: Ledger, rc: string, today: Date, amt: real, other: string)
    ensures Balance(Cashout(ledger, rc, today, amt), rc) == Balance(ledger, rc) - amt
    ensures other != rc ==> Balance(Cashout(ledger, rc, today, amt), other) == Balance(ledger, other)
  {
    var key := CashoutKey(rc, today);
    var v := (if key in ledger then ledger[key] else 0.0) - amt;
    BalanceAfterPut(ledger, key, v);
    if other != rc {
      BalanceOtherUser(ledger, key, v, other);
    }
  }

  /** Two cash-outs on the same day share one ledger row, which holds the sum
      of both (accumulated, not replaced); rows of other keys do not change. */
  lemma CashoutsAccumulate(ledger: Ledger, rc: string, today: Date, a1: real, a2: real)
    ensures var key := CashoutKey(rc, today);
            var after := Cashout(Cashout(ledger, rc, today, a1), rc, today, a2);
            key in after &&
            after[key] == (if key in ledger then ledger[key] else 0.0) - a1 - a2 &&
            after.Keys == ledger.Keys + {key} &&
            forall k :: k in ledger && k != key ==> after[k] == ledger[k]
  {
  }
}
