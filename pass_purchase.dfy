/** The pass purchase dialog (`src/components/PassPurchaseModal.tsx`): the
    period text of a pass ("3개월 + 15일", "무제한") read into months and days,
    the expiry date computed from it, the quantity stepper and the price
    check before the transfer. */
module PassPurchase {
  import opened Common
  import opened Calendar
  import Store

  const UNLIMITED: string := "무제한"
  const MONTHS: string := "개월"
  const DAYS: string := "일"

  /** The characters the period text loses before it is read: the `\s` class
      and the zero-width space, non-joiner and joiner. */
  predicate IsBlank(c: char) {
    IsSpace(c) || c == '\U{200B}' || c == '\U{200C}' || c == '\U{200D}'
  }

  /** `replace(/[\s ​‌‍]+/g, "")`. */
  function Compact(s: string): (r: string)
    ensures |r| <= |s|
    ensures forall i :: 0 <= i < |r| ==> !IsBlank(r[i])
    ensures (forall i :: 0 <= i < |s| ==> !IsBlank(s[i])) ==> r == s
    ensures forall c :: multiset(r)[c] == if IsBlank(c) then 0 else multiset(s)[c]
  {
    if |s| == 0 then ""
    else
      assert s == [s[0]] + s[1..];
      if IsBlank(s[0]) then Compact(s[1..])
      else [s[0]] + Compact(s[1..])
  }

  /** Removing blanks works piece by piece, so the other characters keep
      their order. */
  lemma {:induction false} CompactAppend(a: string, b: string)
    ensures Compact(a + b) == Compact(a) + Compact(b)
    decreases |a|
  {
    if |a| > 0 {
      assert (a + b)[0] == a[0];
      assert (a + b)[1..] == a[1..] + b;
      CompactAppend(a[1..], b);
    } else {
      assert a + b == b;
    }
  }

  /** A suffix word of the period grammar: it does not start with a digit. */
  predicate IsMarker(marker: string) { |marker| > 0 && !IsDigit(marker[0]) }

  /** The sum of the numbers of every match of `/(\d+)<marker>/g`, found left
      to right without overlap. A match can only start where a run of digits
      starts, and it takes the whole run. */
  function MarkedSum(txt: string, marker: string): nat
    requires IsMarker(marker)
    decreases |txt|
  {
    if |txt| == 0 then 0
    else if !IsDigit(txt[0]) then MarkedSum(txt[1..], marker)
    else
      var n := RunLength(txt);
      if IsPrefix(marker, txt[n..]) then DigitsValue(txt[..n]) + MarkedSum(txt[n + |marker|..], marker)
      else MarkedSum(txt[n..], marker)
  }

  /** The `while ((m = regex.exec(txt)) !== null) total += Number(m[1])`
      loop. */
  method SumMatches(txt: string, marker: string) returns (total: nat)
    requires IsMarker(marker)
    ensures total == MarkedSum(txt, marker)
  {
    total := 0;
    var i := 0;
    while i < |txt|
      invariant 0 <= i <= |txt|
      invariant total + MarkedSum(txt[i..], marker) == MarkedSum(txt, marker)
      decreases |txt| - i
    {
      var rest := txt[i..];
      if !IsDigit(txt[i]) {
        assert rest[1..] == txt[i + 1..];
        i := i + 1;
      } else {
        var n := RunLength(rest);
        assert rest[n..] == txt[i + n..];
        if IsPrefix(marker, txt[i + n..]) {
          assert rest[n + |marker|..] == txt[i + n + |marker|..];
          total := total + DigitsValue(rest[..n]);
          i := i + n + |marker|;
        } else {
          i := i + n;
        }
      }
    }
  }

  datatype Period = Period(unlimited: bool, months: nat, days: nat)

  /** `parsePeriod` (the NFKC normalisation, which folds full-width digits and
      compatibility characters, is not modelled). */
  method ParsePeriod(period: string) returns (p: Period)
    ensures p.unlimited <==> Contains(Compact(period), UNLIMITED)
    ensures p.unlimited ==> p.months == 0 && p.days == 0
    ensures !p.unlimited ==> p.months == MarkedSum(Compact(period), MONTHS) && p.days == MarkedSum(Compact(period), DAYS)
  {
    var txt := Compact(period);
    if Contains(txt, UNLIMITED) {
      return Period(true, 0, 0);
    }
    var months := SumMatches(txt, MONTHS);
    var days := SumMatches(txt, DAYS);
    p := Period(false, months, days);
  }

  /** A suffix of a text that has no match has none either. */
  lemma ContainsSuffix(txt: string, k: nat, key: string)
    requires k <= |txt| && Contains(txt[k..], key)
    ensures Contains(txt, key)
  {
    var i :| 0 <= i <= |txt[k..]| && IsPrefix(key, txt[k..][i..]);
    assert txt[k..][i..] == txt[k + i..];
  }

  /** A text in which the marker never occurs adds nothing. */
  lemma {:induction false} MarkedNone(txt: string, marker: string)
    requires IsMarker(marker) && !Contains(txt, marker)
    ensures MarkedSum(txt, marker) == 0
    decreases |txt|
  {
    if |txt| > 0 {
      if !IsDigit(txt[0]) {
        if Contains(txt[1..], marker) {
          ContainsSuffix(txt, 1, marker);
        }
        MarkedNone(txt[1..], marker);
      } else {
        var n := RunLength(txt);
        assert !IsPrefix(marker, txt[n..]);
        if Contains(txt[n..], marker) {
          ContainsSuffix(txt, n, marker);
        }
        MarkedNone(txt[n..], marker);
      }
    }
  }

  /** A number followed by the marker adds that number, whatever follows. */
  lemma NumberMarked(n: nat, marker: string, rest: string)
    requires IsMarker(marker)
    ensures MarkedSum(Decimal(n) + marker + rest, marker) == n + MarkedSum(rest, marker)
  {
    var d := Decimal(n);
    var txt := d + marker + rest;
    assert txt == d + (marker + rest);
    RunOfDigits(d, marker + rest);
    assert txt[..|d|] == d;
    assert txt[|d|..] == marker + rest;
    assert txt[|d| + |marker|..] == rest;
  }

  /** A text without the marker's first character does not contain it. */
  lemma Lacks(txt: string, key: string)
    requires |key| > 0 && forall i :: 0 <= i < |txt| ==> txt[i] != key[0]
    ensures !Contains(txt, key)
  {
    forall i | 0 <= i <= |txt| ensures !IsPrefix(key, txt[i..]) {
      if i < |txt| {
        assert txt[i..][0] == txt[i];
      }
    }
  }

  /** "3개월" is three months and no days. */
  lemma ThreeMonths()
    ensures MarkedSum("3개월", MONTHS) == 3 && MarkedSum("3개월", DAYS) == 0
  {
    assert Decimal(3) == "3";
    assert "3개월" == Decimal(3) + MONTHS + "";
    NumberMarked(3, MONTHS, "");
    MarkedNone("", MONTHS);
    Lacks("3개월", DAYS);
    MarkedNone("3개월", DAYS);
  }

  /** Characters that are not digits are passed over. */
  lemma {:induction false} MarkedSkip(w: string, rest: string, marker: string)
    requires IsMarker(marker) && forall i :: 0 <= i < |w| ==> !IsDigit(w[i])
    ensures MarkedSum(w + rest, marker) == MarkedSum(rest, marker)
    decreases |w|
  {
    if |w| == 0 {
      assert w + rest == rest;
    } else {
      assert (w + rest)[1..] == w[1..] + rest;
      MarkedSkip(w[1..], rest, marker);
    }
  }

  /** A number not followed by the marker adds nothing. */
  lemma NumberUnmarked(n: nat, marker: string, rest: string)
    requires IsMarker(marker) && !IsPrefix(marker, rest) && (|rest| == 0 || !IsDigit(rest[0]))
    ensures MarkedSum(Decimal(n) + rest, marker) == MarkedSum(rest, marker)
  {
    var d := Decimal(n);
    RunOfDigits(d, rest);
    assert (d + rest)[|d|..] == rest;
  }

  /** A period with bonus days counts both: "6개월+15일" is six months and
      fifteen days. */
  lemma MonthsAndBonusDays()
    ensures MarkedSum("6개월+15일", MONTHS) == 6 && MarkedSum("6개월+15일", DAYS) == 15
  {
    var tail := "+" + Decimal(15) + DAYS;
    assert Decimal(6) == "6";
    assert Decimal(15) == "15" by {
      assert Decimal(1) == "1";
    }
    assert "6개월+15일" == Decimal(6) + MONTHS + tail;
    BonusMonths(tail);
    BonusDays(tail);
  }

  lemma BonusMonths(tail: string)
    requires tail == "+" + Decimal(15) + DAYS
    ensures MarkedSum(Decimal(6) + MONTHS + tail, MONTHS) == 6
  {
    NumberMarked(6, MONTHS, tail);
    assert tail == "+" + (Decimal(15) + DAYS);
    MarkedSkip("+", Decimal(15) + DAYS, MONTHS);
    NumberUnmarked(15, MONTHS, DAYS);
    Lacks(DAYS, MONTHS);
    MarkedNone(DAYS, MONTHS);
  }

  lemma BonusDays(tail: string)
    requires tail == "+" + Decimal(15) + DAYS
    ensures MarkedSum(Decimal(6) + MONTHS + tail, DAYS) == 15
  {
    assert Decimal(6) + MONTHS + tail == Decimal(6) + (MONTHS + tail);
    NumberUnmarked(6, DAYS, MONTHS + tail);
    BonusDaysTail(tail);
  }

  lemma BonusDaysTail(tail: string)
    requires tail == "+" + Decimal(15) + DAYS
    ensures MarkedSum(MONTHS + tail, DAYS) == 15
  {
    assert MONTHS + tail == (MONTHS + "+") + (Decimal(15) + DAYS + "");
    MarkedSkip(MONTHS + "+", Decimal(15) + DAYS + "", DAYS);
    NumberMarked(15, DAYS, "");
    MarkedNone("", DAYS);
  }

  /** "1년" has neither marker and gives no time at all. */
  lemma YearGivesNothing()
    ensures MarkedSum("1년", MONTHS) == 0 && MarkedSum("1년", DAYS) == 0
  {
    Lacks("1년", MONTHS);
    MarkedNone("1년", MONTHS);
    Lacks("1년", DAYS);
    MarkedNone("1년", DAYS);
  }

  // ---------------------------------------------------------------------------
  // Expiry.

  /** The day `months` months after `base`: the month carried into the year,
      and the day cut to the last day of the target month. */
  function AfterMonths(base: CalDate, months: nat): (a: CalDate)
    requires ValidDate(base)
    ensures ValidDate(a)
    ensures a.year * 12 + a.month == base.year * 12 + base.month + months
    ensures a.day == if base.day <= DaysIn(a.year, a.month) then base.day else DaysIn(a.year, a.month)
  {
    var tm := base.month + months;
    var y := base.year + tm / 12;
    var m := tm % 12;
    CalDate(y, m, if base.day <= DaysIn(y, m) then base.day else DaysIn(y, m))
  }

  /** `((m % 12) + 12) % 12` is the month within its year. */
  lemma MonthCarry(tm: nat)
    ensures ((tm % 12) + 12) % 12 == tm % 12
  {
  }

  /** `new Date(y, m + 1, 0).getDate()` is the number of days of month `m`. */
  lemma EndOfMonth(y: nat, m: int)
    requires 0 <= m < 12
    ensures var (ny, nm) := NextMonth(y, m);
            0 <= nm < 12 && (nm > 0 || ny > 0) && MakeDate(ny, nm, 0).day == DaysIn(y, m)
  {
  }

  /** The day `AfterMonths` names, in the terms `addMonthsAndDays` computes
      it: the carried year and month, and the day cut with a strict
      comparison. */
  lemma AfterMonthsAt(base: CalDate, months: nat, y: int, m: int, end: int)
    requires ValidDate(base)
    requires y == base.year + (base.month + months) / 12 && m == (base.month + months) % 12
    requires end == DaysIn(y, m)
    ensures AfterMonths(base, months) == CalDate(y, m, if base.day < end then base.day else end)
  {
  }

  /** No months after a day is that day. */
  lemma AfterNoMonths(base: CalDate)
    requires ValidDate(base)
    ensures AfterMonths(base, 0) == base
  {
    assert (base.month + 0) / 12 == 0 && (base.month + 0) % 12 == base.month;
  }

  /** `addMonthsAndDays`. */
  method AddMonthsAndDays(base: CalDate, months: nat, days: nat) returns (r: CalDate)
    requires ValidDate(base)
    ensures ValidDate(r)
    ensures Ordinal(r) == Ordinal(AfterMonths(base, months)) + days
    ensures days == 0 ==> r == AfterMonths(base, months)
    ensures months == 0 && days == 0 ==> r == base
  {
    var targetMonth := base.month + months;
    // Math.floor of a quotient that is never negative here.
    var targetYear := base.year + targetMonth / 12;
    var normalizedMonth := ((targetMonth % 12) + 12) % 12;
    var originalDate := base.day;
    // new Date(targetYear, normalizedMonth + 1, 0): month 12 is January of
    // the next year.
    MonthCarry(targetMonth);
    var (ny, nm) := NextMonth(targetYear, normalizedMonth);
    EndOfMonth(targetYear, normalizedMonth);
    var end := new JsDate(ny, nm, 0);
    var endOfTargetMonth := end.day;
    var finalDate := if originalDate < endOfTargetMonth then originalDate else endOfTargetMonth;
    AfterMonthsAt(base, months, targetYear, normalizedMonth, endOfTargetMonth);
    ghost var a := AfterMonths(base, months);
    var afterMonths := new JsDate(targetYear, normalizedMonth, finalDate);
    MakeValid(a);
    afterMonths.SetDate(afterMonths.day + days);
    r := afterMonths.Value();
    MakeDateOrdinal(targetYear, normalizedMonth, finalDate + days);
    if months == 0 {
      AfterNoMonths(base);
    }
  }

  /** `computeExpiry`: an unlimited pass expires in 2099 on the base day (29
      February, which 2099 lacks, becomes 1 March); otherwise the parsed
      months and days are added. */
  method ComputeExpiry(period: string, base: CalDate) returns (r: CalDate)
    requires ValidDate(base)
    ensures ValidDate(r)
    ensures Contains(Compact(period), UNLIMITED) && !IsLeapDay(base) ==> r == CalDate(2099, base.month, base.day)
    ensures Contains(Compact(period), UNLIMITED) && IsLeapDay(base) ==> r == CalDate(2099, 2, 1)
    ensures !Contains(Compact(period), UNLIMITED) ==>
              Ordinal(r) == Ordinal(AfterMonths(base, MarkedSum(Compact(period), MONTHS))) + MarkedSum(Compact(period), DAYS)
    ensures !Contains(Compact(period), UNLIMITED) && !Contains(Compact(period), MONTHS) && !Contains(Compact(period), DAYS) ==>
              r == base
  {
    var p := ParsePeriod(period);
    if p.unlimited {
      var d := new JsDate.Copy(base);
      d.SetFullYear(2099);
      return d.Value();
    }
    if !Contains(Compact(period), MONTHS) {
      MarkedNone(Compact(period), MONTHS);
    }
    if !Contains(Compact(period), DAYS) {
      MarkedNone(Compact(period), DAYS);
    }
    r := AddMonthsAndDays(base, p.months, p.days);
  }

  datatype ExpiryPreview = Unlimited | Until(date: Date)

  /** `previewExpired`: "무제한" for an unlimited pass, otherwise the expiry
      day's text, from today. */
  method PreviewExpired(period: string, today: CalDate) returns (preview: ExpiryPreview)
    requires ValidDate(today)
    ensures preview == Unlimited <==> Contains(Compact(period), UNLIMITED)
    ensures preview.Until? ==>
              exists r :: ValidDate(r) && preview.date == KeyOf(r) &&
                Ordinal(r) == Ordinal(AfterMonths(today, MarkedSum(Compact(period), MONTHS))) + MarkedSum(Compact(period), DAYS)
  {
    var meta := ParsePeriod(period);
    if meta.unlimited {
      return Unlimited;
    }
    var d := ComputeExpiry(period, today);
    preview := Until(KeyOf(d));
  }

  // ---------------------------------------------------------------------------
  // Quantity and price.

  const MAX_QTY: int := 99

  predicate InRange(q: int) { 1 <= q <= MAX_QTY }

  /** `dec`. */
  function Dec(q: int): (r: int)
    ensures r >= 1
    ensures q > 1 ==> r == q - 1
  {
    if q - 1 > 1 then q - 1 else 1
  }

  /** `inc`. */
  function Inc(q: int): (r: int)
    ensures r <= MAX_QTY
    ensures q < MAX_QTY ==> r == q + 1
  {
    if q + 1 < MAX_QTY then q + 1 else MAX_QTY
  }

  /** `v.replace(/[^\d]/g, "")`: the digits of `v`, in order. */
  function DigitsOnly(v: string): (d: string)
    ensures AllDigits(d) && |d| <= |v|
    ensures AllDigits(v) ==> d == v
  {
    if |v| == 0 then ""
    else if IsDigit(v[0]) then [v[0]] + DigitsOnly(v[1..])
    else DigitsOnly(v[1..])
  }

  /** `onChangeQty`: the typed digits as a number, kept within 1..99. The
      digit-only text is always a number (the empty text is 0), so the
      not-a-number branch is never taken. */
  function OnChangeQty(v: string): (q: int)
    ensures InRange(q)
    ensures InRange(DigitsValue(DigitsOnly(v))) ==> q == DigitsValue(DigitsOnly(v))
  {
    var n := DigitsValue(DigitsOnly(v));
    if n > MAX_QTY then MAX_QTY else if n < 1 then 1 else n
  }

  /** The stepper keeps the quantity within 1..99, its two buttons undo each
      other inside the range, and typing a number of the range gives that
      number. */
  lemma QuantityFacts(q: int, n: nat)
    requires InRange(q)
    ensures InRange(Dec(q)) && InRange(Inc(q))
    ensures q > 1 ==> Inc(Dec(q)) == q
    ensures q < MAX_QTY ==> Dec(Inc(q)) == q
    ensures InRange(n) ==> OnChangeQty(Decimal(n)) == n
  {
  }

  /** `totalPrice`. */
  function TotalPrice(quantity: int, price: real): real {
    (if quantity > 1 then quantity else 1) as real * price
  }

  datatype PurchaseStep = NoWallet | Insufficient | Transfer(total: real)

  /** The guards of `handlePurchase` before the token transfer, which is
      not modelled. */
  function PurchaseGate(address: Option<string>, balance: real, quantity: int, price: real): (s: PurchaseStep)
    ensures !Store.Truthy(address) ==> s == NoWallet
    ensures s.Transfer? <==> Store.Truthy(address) && !(balance < TotalPrice(quantity, price))
    ensures s.Transfer? ==> s.total <= balance
    ensures InRange(quantity) && s.Transfer? ==> s.total == quantity as real * price
  {
    if !Store.Truthy(address) then NoWallet
    else if balance < TotalPrice(quantity, price) then Insufficient
    else Transfer(TotalPrice(quantity, price))
  }
}
