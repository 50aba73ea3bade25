/** The bank account form (`src/app/settings/bank/page.tsx`): the checks made
    before saving, in order, and the save itself, an upsert of the user's one
    row of user_bank_accounts keyed by ref_code. */
module Bank {
  import opened Common

  datatype BankForm = BankForm(holder: string, bankName: string, accountNumber: string)

  /** A row of user_bank_accounts (its key, ref_code, is the key of the
      table). */
  datatype BankAccount = BankAccount(userName: string, holder: string, bankName: string, accountNumber: string)

  type Accounts = map<string, BankAccount>

  const NEED_HOLDER: string := "예금주를 입력해 주세요."
  const NEED_BANK: string := "은행명을 입력해 주세요."
  const NEED_NUMBER: string := "계좌번호를 입력해 주세요."
  const BAD_NUMBER: string := "계좌번호 형식이 올바르지 않습니다."
  const NO_REF: string := "ref_code를 확인할 수 없습니다."

  predicate AccountChar(c: char) { IsDigit(c) || c == '-' || c == ' ' }

  /** `/^[0-9\- ]{6,30}$/`: 6 to 30 characters, each a digit, a dash or a
      space. */
  predicate AccountFormat(s: string) {
    6 <= |s| <= 30 && forall i :: 0 <= i < |s| ==> AccountChar(s[i])
  }

  /** `validate`: the message of the first check that fails, or "" when all
      pass. The format is checked on the number as typed, not trimmed. */
  function Validate(form: BankForm): (msg: string)
    ensures msg == "" <==>
              Trim(form.holder) != "" && Trim(form.bankName) != "" && Trim(form.accountNumber) != "" &&
              AccountFormat(form.accountNumber)
    ensures Trim(form.holder) == "" ==> msg == NEED_HOLDER
    ensures Trim(form.holder) != "" && Trim(form.bankName) == "" ==> msg == NEED_BANK
    ensures Trim(form.holder) != "" && Trim(form.bankName) != "" && Trim(form.accountNumber) == "" ==> msg == NEED_NUMBER
    ensures (Trim(form.holder) != "" && Trim(form.bankName) != "" && Trim(form.accountNumber) != "" &&
             !AccountFormat(form.accountNumber)) ==> msg == BAD_NUMBER
  {
    if Trim(form.holder) == "" then NEED_HOLDER
    else if Trim(form.bankName) == "" then NEED_BANK
    else if Trim(form.accountNumber) == "" then NEED_NUMBER
    else if !AccountFormat(form.accountNumber) then BAD_NUMBER
    else ""
  }

  datatype SaveOutcome = Refused(message: string) | Saved

  datatype SaveResult = SaveResult(outcome: SaveOutcome, accounts: Accounts)

  /** The saved row: the trimmed fields, and the user's name, else the holder
      as typed, else "". */
  function Payload(form: BankForm, userName: string): BankAccount {
    BankAccount(if userName != "" then userName else if form.holder != "" then form.holder else "",
                Trim(form.holder), Trim(form.bankName), Trim(form.accountNumber))
  }

  /** `onSave`: refused on a failed check or without a ref_code; otherwise the
      user's row is replaced by the new one. */
  function OnSave(form: BankForm, refCode: string, userName: string, accounts: Accounts): (r: SaveResult)
    ensures r.outcome == Saved <==> Validate(form) == "" && refCode != ""
    ensures Validate(form) != "" ==> r.outcome == Refused(Validate(form))
    ensures r.outcome != Saved ==> r.accounts == accounts
    ensures r.outcome == Saved ==>
              r.accounts.Keys == accounts.Keys + {refCode} &&
              r.accounts[refCode] == Payload(form, userName) &&
              forall k :: k in accounts && k != refCode ==> r.accounts[k] == accounts[k]
  {
    var msg := Validate(form);
    if msg != "" then SaveResult(Refused(msg), accounts)
    else if refCode == "" then SaveResult(Refused(NO_REF), accounts)
    else SaveResult(Saved, Upsert(accounts, refCode, Payload(form, userName)))
  }

  /** `upsert(..., { onConflict: "ref_code" })`: the row under the key is
      replaced or added, the other rows stay. */
  function Upsert(accounts: Accounts, refCode: string, row: BankAccount): (r: Accounts)
    ensures r.Keys == accounts.Keys + {refCode}
    ensures r[refCode] == row
    ensures forall k :: k in accounts && k != refCode ==> r[k] == accounts[k]
  {
    accounts[refCode := row]
  }

  /** A saved row is well formed: its fields are trimmed and non-empty, the
      holder is never blank, so neither is the stored user name. */
  lemma SavedRow(form: BankForm, refCode: string, userName: string, accounts: Accounts)
    requires OnSave(form, refCode, userName, accounts).outcome == Saved
    ensures var row := OnSave(form, refCode, userName, accounts).accounts[refCode];
            row.holder != "" && row.bankName != "" && row.accountNumber != "" && row.userName != "" &&
            row.accountNumber == Trim(form.accountNumber) &&
            forall i :: 0 <= i < |row.accountNumber| ==> AccountChar(row.accountNumber[i])
  {
    var row := OnSave(form, refCode, userName, accounts).accounts[refCode];
    assert row == Payload(form, userName);
    assert Validate(form) == "";
    TrimmedAccountChars(form.accountNumber);
    TrimOfEmpty(form.holder);
  }

  /** Only the empty text trims to nothing from nothing. */
  lemma TrimOfEmpty(s: string)
    requires Trim(s) != ""
    ensures s != ""
  {
    assert |Trim(s)| <= |TrimStart(s)| <= |s|;
  }

  /** Trimming keeps a run of account characters one. */
  lemma TrimmedAccountChars(n: string)
    requires forall i :: 0 <= i < |n| ==> AccountChar(n[i])
    ensures forall i :: 0 <= i < |Trim(n)| ==> AccountChar(Trim(n)[i])
  {
    var t := Trim(n);
    assert t == TrimStart(n)[..|t|];
    forall i | 0 <= i < |t| ensures AccountChar(t[i]) {
      assert t[i] == TrimStart(n)[i] == n[|n| - |TrimStart(n)| + i];
    }
  }

  /** Saving the same form again leaves the table as the first save left
      it. */
  lemma SaveIdempotent(form: BankForm, refCode: string, userName: string, accounts: Accounts)
    ensures var once := OnSave(form, refCode, userName, accounts).accounts;
            OnSave(form, refCode, userName, once).accounts == once
  {
  }

  /** The format is checked on the number as typed while the trimmed number is
      stored, so a five-digit number padded with a space to six characters
      passes the format and is stored with five. */
  lemma PaddedNumberStoredShort(d: string)
    requires |d| == 5 && AllDigits(d)
    ensures AccountFormat(" " + d) && Trim(" " + d) == d && |Trim(" " + d)| < 6
  {
    var n := " " + d;
    assert n == " " + d + "";
    TrimPadded(" ", d, "");
    forall i | 0 <= i < |n| ensures AccountChar(n[i]) {
      if i > 0 {
        assert n[i] == d[i - 1];
      }
    }
  }
}
