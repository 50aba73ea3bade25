/** The subscription list on the profile page
    (`src/components/MySubscriptionsCard.tsx`): each enrollment expires one
    year after it was made, it is active until that day, and the list shows
    five rows until it is expanded. */
module Subscriptions {
  import opened Common
  import opened Calendar

  const MAX: nat := 5

  /** A row of enrollments as the card reads it. The two creation times are
      given as the calendar days the card reads from them (the time zone of
      the browser is not modelled). */
  datatype SubscriptionRow = SubscriptionRow(
    id: string,
    createdAt: Option<CalDate>,
    createdAtKst: Option<CalDate>,
    tuition: Option<real>,
    passExpiredAt: Option<string>,
    passType: Option<string>,
    quantity: Option<int>)

  predicate RowValid(row: SubscriptionRow) {
    (row.createdAt.Some? ==> ValidDate(row.createdAt.value)) &&
    (row.createdAtKst.Some? ==> ValidDate(row.createdAtKst.value))
  }

  /** The same day a year later; 29 February becomes 28 February. */
  function OneYearLater(d: CalDate): (r: CalDate)
    requires ValidDate(d)
    ensures ValidDate(r)
  {
    if IsLeapDay(d) then CalDate(d.year + 1, 1, 28) else CalDate(d.year + 1, d.month, d.day)
  }

  /** A year later is 365 or 366 days later. */
  lemma OneYearLaterSpan(d: CalDate)
    requires ValidDate(d)
    ensures 365 <= Ordinal(OneYearLater(d)) - Ordinal(d) <= 366
  {
    assert DaysBeforeYear(d.year + 1) == DaysBeforeYear(d.year) + YearLength(d.year);
  }

  /** `addOneYearKST`: `setFullYear(year + 1)`, and `setDate(0)` when that
      carried 29 February into March. */
  method AddOneYearKST(base: CalDate) returns (r: CalDate)
    requires ValidDate(base)
    ensures r == OneYearLater(base)
  {
    var d := new JsDate.Copy(base);
    var m := d.month;
    d.SetFullYear(d.year + 1);
    if d.month != m {
      d.SetDate(0);
    }
    r := d.Value();
  }

  /** The day the expiry is counted from: created_at_kst, else created_at,
      else now. */
  function CreatedOf(row: SubscriptionRow, now: CalDate): CalDate {
    if row.createdAtKst.Some? then row.createdAtKst.value
    else if row.createdAt.Some? then row.createdAt.value
    else now
  }

  /** `formatExpired`: the text of the day a year after the creation day. The
      stored pass_expired_at is not read. */
  method FormatExpired(row: SubscriptionRow, now: CalDate) returns (expiry: Date)
    requires RowValid(row) && ValidDate(now)
    ensures expiry == KeyOf(OneYearLater(CreatedOf(row, now)))
  {
    var created := CreatedOf(row, now);
    var d := AddOneYearKST(created);
    expiry := KeyOf(d);
  }

  /** `isActive`: today's text is at most the expiry text, which is the same
      as today not being later than the expiry day. */
  method IsActive(row: SubscriptionRow, today: CalDate, now: CalDate) returns (active: bool)
    requires RowValid(row) && ValidDate(today) && ValidDate(now)
    ensures active <==> Ordinal(today) <= Ordinal(OneYearLater(CreatedOf(row, now)))
  {
    var expiry := FormatExpired(row, now);
    active := KeyOf(today) <= expiry;
    KeyOrder(today, OneYearLater(CreatedOf(row, now)));
  }

  /** `visibleRows`. */
  function VisibleRows<T>(rows: seq<T>, showAll: bool): (v: seq<T>)
    ensures showAll ==> v == rows
    ensures !showAll ==> |v| == (if |rows| < MAX then |rows| else MAX) && v == rows[..|v|]
  {
    if showAll || |rows| <= MAX then rows else rows[..MAX]
  }

  /** The expand/collapse button: shown only for more than five rows. */
  function Toggle(count: nat, showAll: bool): (t: Option<string>)
    ensures t.Some? <==> count > MAX
  {
    if count <= MAX then None
    else if showAll then Some("접기")
    else Some("상세보기 (" + Decimal(count - MAX) + "개 더 보기)")
  }

  /** Collapsed, the button offers exactly the rows that are hidden. */
  lemma ToggleOffersHidden<T>(rows: seq<T>)
    requires |rows| > MAX
    ensures var hidden := |rows| - |VisibleRows(rows, false)|;
            hidden > 0 &&
            Toggle(|rows|, false) == Some("상세보기 (" + Decimal(hidden) + "개 더 보기)") &&
            DigitsValue(Decimal(hidden)) == hidden
  {
  }
}
