/** User registration (`src/app/api/register/route.ts`): a wallet address is
    registered once; a new user gets the next referral code, the referrer's
    center and the defaults for what the request leaves out. */
module Register {
  import opened Common
  import Store

  const FIRST_NUMBER: int := 1001
  const DEFAULT_REF: string := "HM1001"
  const DEFAULT_CENTER: string := "HM1001"
  const DEFAULT_PHONE: string := "01000000000"

  /** The text after an optional leading sign. */
  function Unsigned(t: string): string {
    if |t| > 0 && (t[0] == '-' || t[0] == '+') then t[1..] else t
  }

  /** The value of the digits that start `u`; None (NaN) without a digit. */
  function Magnitude(u: string): Option<int> {
    var n := RunLength(u);
    if n == 0 then None else Some(DigitsValue(u[..n]))
  }

  /** `parseInt` after the leading white space: an optional sign, then the
      digits up to the first non-digit. */
  function SignedDigits(t: string): Option<int> {
    var m := Magnitude(Unsigned(t));
    if m.None? then None
    else Some(if |t| > 0 && t[0] == '-' then -m.value else m.value)
  }

  /** `parseInt(s)` in base 10: leading white space, an optional sign, then
      the digits up to the first non-digit; None (NaN) without a digit. The
      `0x` prefix, which `parseInt` reads as hexadecimal, is not modelled. */
  function ParseInt(s: string): (r: Option<int>)
    ensures AllDigits(s) && |s| > 0 ==> r == Some(DigitsValue(s))
  {
    AllDigitsRead(s);
    SignedDigits(TrimStart(s))
  }

  lemma AllDigitsRead(s: string)
    ensures AllDigits(s) && |s| > 0 ==> SignedDigits(TrimStart(s)) == Some(DigitsValue(s))
  {
    if AllDigits(s) && |s| > 0 {
      ParseIntDigitsThen(s, "");
      assert s + "" == s;
    }
  }

  /** The unsigned digits of a number followed by a non-digit. */
  lemma DigitRun(d: string, t: string)
    requires |d| > 0 && AllDigits(d) && (|t| == 0 || !IsDigit(t[0]))
    ensures RunLength(d + t) == |d| && (d + t)[..|d|] == d
  {
    RunOfDigits(d, t);
  }

  /** The digits of a number followed by a non-digit give its value. */
  lemma MagnitudeOf(d: string, t: string)
    requires |d| > 0 && AllDigits(d) && (|t| == 0 || !IsDigit(t[0]))
    ensures Magnitude(d + t) == Some(DigitsValue(d))
  {
    DigitRun(d, t);
  }

  /** Digits followed by a non-digit, or by nothing, read as their value:
      `parseInt` stops at the first non-digit. */
  lemma ParseIntDigitsThen(d: string, t: string)
    requires |d| > 0 && AllDigits(d) && (|t| == 0 || !IsDigit(t[0]))
    ensures SignedDigits(TrimStart(d + t)) == Some(DigitsValue(d))
  {
    var s := d + t;
    assert TrimStart(s) == s && Unsigned(s) == s by {
      assert s[0] == d[0] && IsDigit(d[0]);
      TrimStartKeeps(s);
    }
    MagnitudeOf(d, t);
  }

  /** `parseInt` stops at the first non-digit after the digits. */
  lemma ParseIntDigits(s: string, d: string, t: string)
    requires s == d + t
    requires |d| > 0 && AllDigits(d) && (|t| == 0 || !IsDigit(t[0]))
    ensures ParseInt(s) == Some(DigitsValue(d))
  {
    ParseIntDigitsThen(d, t);
  }

  /** A sign in front of the digits: "-" negates them, "+" is dropped. */
  lemma ParseIntSigned(m: string, d: string, t: string)
    requires |m| > 0 && (m[0] == '-' || m[0] == '+') && m[1..] == d + t
    requires |d| > 0 && AllDigits(d) && (|t| == 0 || !IsDigit(t[0]))
    ensures ParseInt(m) == Some(if m[0] == '-' then -(DigitsValue(d) as int) else DigitsValue(d) as int)
  {
    TrimStartKeeps(m);
    SignedDigitsOf(m, d, t);
  }

  lemma SignedDigitsOf(m: string, d: string, t: string)
    requires |m| > 0 && (m[0] == '-' || m[0] == '+') && m[1..] == d + t
    requires |d| > 0 && AllDigits(d) && (|t| == 0 || !IsDigit(t[0]))
    ensures SignedDigits(m) == Some(if m[0] == '-' then -(DigitsValue(d) as int) else DigitsValue(d) as int)
  {
    MagnitudeOf(d, t);
  }

  /** Leading white space is skipped. */
  lemma ParseIntSkipsSpace(c: char, s: string)
    requires IsSpace(c)
    ensures ParseInt([c] + s) == ParseInt(s)
  {
    assert ([c] + s)[1..] == s;
    assert TrimStart([c] + s) == TrimStart(s);
    assert ParseInt([c] + s) == SignedDigits(TrimStart(s));
  }

  /** A text that starts with something other than white space, a sign or a
      digit, or is empty, is not a number (NaN). */
  lemma ParseIntNaN(s: string)
    requires |s| == 0 || (!IsSpace(s[0]) && !IsDigit(s[0]) && s[0] != '-' && s[0] != '+')
    ensures ParseInt(s).None?
  {
    TrimStartKeeps(s);
  }

  /** `${n}` for a whole number. */
  function IntText(n: int): string {
    if n < 0 then "-" + Decimal(-n) else Decimal(n)
  }

  /** The referral code that follows `latest`, the ref_code of the most
      recently created user (None with no users or a null ref_code): a code
      after "HM" is read with `parseInt` and increased by one, a suffix with no
      number gives "HMNaN", and anything else gives "HM1001". */
  function NextReferralCode(latest: Option<string>): string {
    if latest.Some? && IsPrefix("HM", latest.value) then
      "HM" + (match ParseInt(latest.value[2..])
              case Some(v) => IntText(v + 1)
              case None => "NaN")
    else "HM" + Decimal(FIRST_NUMBER)
  }

  /** `generateNextReferralCode`, with `latest` read from the users table. */
  method GenerateNextReferralCode(latest: Option<string>) returns (code: string)
    ensures code == NextReferralCode(latest)
    ensures latest.None? || !IsPrefix("HM", latest.value) ==> code == "HM1001"
  {
    var newNumber: Option<int> := Some(FIRST_NUMBER);
    if latest.Some? && IsPrefix("HM", latest.value) {
      var lastNum := ParseInt(latest.value[2..]);
      newNumber := if lastNum.Some? then Some(lastNum.value + 1) else None;
    }
    code := "HM" + (if newNumber.Some? then IntText(newNumber.value) else "NaN");
  }

  /** After "HM" followed by a number comes "HM" followed by the next
      number. */
  lemma NextCodeAfter(n: nat)
    ensures NextReferralCode(Some("HM" + Decimal(n))) == "HM" + Decimal(n + 1)
  {
    var latest := "HM" + Decimal(n);
    assert latest[2..] == Decimal(n);
    assert IsPrefix("HM", latest);
    assert ParseInt(Decimal(n)) == Some(n);
  }

  /** A code whose suffix starts with something that is not white space, a
      sign or a digit (as in "HMX") is followed by "HMNaN". */
  lemma NonNumericSuffix(c: char, rest: string)
    requires !IsSpace(c) && !IsDigit(c) && c != '-' && c != '+'
    ensures NextReferralCode(Some("HM" + [c] + rest)) == "HMNaN"
  {
    var code := "HM" + [c] + rest;
    assert code[2..] == [c] + rest && IsPrefix("HM", code);
    ParseIntNaN([c] + rest);
  }

  // ---------------------------------------------------------------------------
  // Registration.

  /** A row of users, as far as registration reads and writes it. */
  datatype UserRecord = UserRecord(
    id: string,
    walletAddress: string,
    email: string,
    phone: string,
    name: Option<string>,
    refCode: Option<string>,
    refBy: string,
    centerId: Option<string>,
    inviterName: Option<string>,
    centerName: Option<string>,
    joinedDate: Date)

  /** The request body; a field the request leaves out is None and takes its
      default. */
  datatype RegisterBody = RegisterBody(
    walletAddress: Option<string>,
    email: Option<string>,
    phone: Option<string>,
    refBy: Option<string>,
    name: Option<string>)

  datatype RegisterResponse =
    | BadRequest(error: string)
    | AlreadyRegistered(id: string, refCode: Option<string>)
    | Registered(id: string, refCode: Option<string>)

  /** The first user with the wallet address (`maybeSingle`). */
  function FindByWallet(users: seq<UserRecord>, wallet: string): (r: Option<UserRecord>)
    ensures r.Some? ==> r.value in users && r.value.walletAddress == wallet
    ensures r.None? ==> forall i :: 0 <= i < |users| ==> users[i].walletAddress != wallet
  {
    if |users| == 0 then None
    else if users[0].walletAddress == wallet then Some(users[0])
    else FindByWallet(users[1..], wallet)
  }

  /** The first user with the ref_code. */
  function FindByRef(users: seq<UserRecord>, refCode: string): (r: Option<UserRecord>)
    ensures r.Some? ==> r.value in users && r.value.refCode == Some(refCode)
    ensures r.None? ==> forall i :: 0 <= i < |users| ==> users[i].refCode != Some(refCode)
  {
    if |users| == 0 then None
    else if users[0].refCode == Some(refCode) then Some(users[0])
    else FindByRef(users[1..], refCode)
  }

  lemma {:induction false} FindAppended(users: seq<UserRecord>, row: UserRecord)
    requires FindByWallet(users, row.walletAddress).None?
    ensures FindByWallet(users + [row], row.walletAddress) == Some(row)
    decreases |users|
  {
    if |users| == 0 {
      assert users + [row] == [row];
    } else {
      assert (users + [row])[1..] == users[1..] + [row];
      FindAppended(users[1..], row);
    }
  }

  function WithDefault(o: Option<string>, d: string): string {
    if o.Some? then o.value else d
  }

  /** `POST`: 400 without a wallet address; the existing id and ref_code for a
      registered wallet; otherwise a new user. `latest` is the ref_code of the
      newest user, `newId` the id the table assigns and `today` the Korean
      day. */
  method Post(body: RegisterBody, users: seq<UserRecord>, latest: Option<string>, newId: string, today: Date)
    returns (resp: RegisterResponse, users': seq<UserRecord>)
    ensures (body.walletAddress.None? || body.walletAddress.value == "") ==> resp.BadRequest? && users' == users
    ensures body.walletAddress.Some? && body.walletAddress.value != "" &&
            FindByWallet(users, Lower(body.walletAddress.value)).Some? ==>
              var existing := FindByWallet(users, Lower(body.walletAddress.value)).value;
              resp == AlreadyRegistered(existing.id, existing.refCode) && users' == users
    ensures resp.Registered? ==>
              |users'| == |users| + 1 && users'[..|users|] == users &&
              var row := users'[|users|];
              var refBy := WithDefault(body.refBy, DEFAULT_REF);
              var referrer := FindByRef(users, refBy);
              row.walletAddress == Lower(body.walletAddress.value) &&
              row.id == newId && resp.id == newId &&
              row.refCode == Some(NextReferralCode(latest)) && resp.refCode == row.refCode &&
              row.joinedDate == today &&
              row.refBy == refBy &&
              row.email == WithDefault(body.email, "") &&
              row.phone == WithDefault(body.phone, DEFAULT_PHONE) &&
              row.name == (if Trim(WithDefault(body.name, "")) == "" then None else Some(Trim(WithDefault(body.name, "")))) &&
              (referrer.None? ==> row.centerId == Some(DEFAULT_CENTER) && row.inviterName.None? && row.centerName.None?) &&
              (referrer.Some? ==> row.centerId == Some(if Store.Truthy(referrer.value.centerId) then referrer.value.centerId.value else DEFAULT_CENTER) &&
                                  row.inviterName == referrer.value.name && row.centerName == referrer.value.centerName) &&
              FindByWallet(users', row.walletAddress) == Some(row)
    ensures resp.Registered? <==> body.walletAddress.Some? && body.walletAddress.value != "" &&
                                  FindByWallet(users, Lower(body.walletAddress.value)).None?
  {
    users' := users;
    if body.walletAddress.None? || body.walletAddress.value == "" {
      return BadRequest("지갑 주소는 필수입니다."), users;
    }
    var normalizedAddress := Lower(body.walletAddress.value);
    var existing := FindByWallet(users, normalizedAddress);
    if existing.Some? {
      return AlreadyRegistered(existing.value.id, existing.value.refCode), users;
    }
    var refBy := WithDefault(body.refBy, DEFAULT_REF);
    var centerId := DEFAULT_CENTER;
    var inviterName: Option<string> := None;
    var centerName: Option<string> := None;
    var referrer := FindByRef(users, refBy);
    if referrer.Some? {
      centerId := if Store.Truthy(referrer.value.centerId) then referrer.value.centerId.value else DEFAULT_CENTER;
      inviterName := referrer.value.name;
      centerName := referrer.value.centerName;
    }
    var newRefCode := GenerateNextReferralCode(latest);
    var trimmed := Trim(WithDefault(body.name, ""));
    var finalName := if trimmed == "" then None else Some(trimmed);
    var row := UserRecord(newId, normalizedAddress, WithDefault(body.email, ""), WithDefault(body.phone, DEFAULT_PHONE),
                          finalName, Some(newRefCode), refBy, Some(centerId), inviterName, centerName, today);
    users' := users + [row];
    FindAppended(users, row);
    assert users'[..|users|] == users;
    resp := Registered(newId, Some(newRefCode));
  }
}
