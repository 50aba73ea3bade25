/** Interest helpers (`src/lib/interest.ts`): cutting an amount to two
    decimals, resolving the annual rate of each role on a day (a user's own
    override before the global table, the latest start first, then the current
    global row), and a user's outstanding principal. */
module Interest {
  import opened Common
  import opened Folds
  import opened Store

  /** `Math.floor(n * 100) / 100`: cut to two decimals, downward. */
  function Truncate2(n: real): (r: real)
    ensures WholeCents(r)
    ensures r <= n < r + 0.01
  {
    var k := (n * 100.0).Floor;
    CentsAreWhole(k);
    k as real / 100.0
  }

  /** Truncating twice is truncating once. */
  lemma Truncate2Idempotent(n: real)
    ensures Truncate2(Truncate2(n)) == Truncate2(n)
  {
    var k := (n * 100.0).Floor;
    assert Truncate2(n) * 100.0 == k as real;
    assert (k as real).Floor == k;
  }

  /** Negative amounts are cut downward, away from zero. */
  lemma Truncate2Negative()
    ensures Truncate2(-0.005) == -0.01
    ensures Truncate2(1.239) == 1.23
  {
    assert (-0.005 * 100.0).Floor == -1;
    assert (1.239 * 100.0).Floor == 123;
  }

  // ---------------------------------------------------------------------------
  // Rate resolution.

  const ROLE_USER := "user"
  const ROLE_REFERRAL := "referral"
  const ROLE_CENTER := "center"

  /** A row of interest_rates or user_interest_rates: an annual rate in percent
      for one role, valid from start_date to end_date (open when null). */
  datatype RateRow = RateRow(role: string, annualRate: Option<real>, startDate: Option<Date>, endDate: Option<Date>)

  datatype ActiveRates = ActiveRates(user: real, referral: real, center: real)

  /** `Number(annual_rate)`: a missing rate reads 0. */
  function RateOf(r: RateRow): real {
    if r.annualRate.Some? then r.annualRate.value else 0.0
  }

  /** The row is for `role` and in force on `asOf`: it has started, and has no
      end or ends on or after `asOf`. */
  predicate Covers(r: RateRow, role: string, asOf: Date) {
    r.role == role && r.startDate.Some? && r.startDate.value <= asOf &&
    (r.endDate.None? || r.endDate.value >= asOf)
  }

  function CoversAt(role: string, asOf: Date): RateRow -> bool {
    r => Covers(r, role, asOf)
  }

  function Start(r: RateRow): Date {
    if r.startDate.Some? then r.startDate.value else 0
  }

  /** `sort(by start_date).at(-1)`: the candidate with the latest start; among
      equal starts, the first listed. */
  function LatestStart(cands: seq<RateRow>): (r: RateRow)
    requires |cands| > 0
    ensures r in cands
    ensures forall c :: c in cands ==> Start(c) <= Start(r)
  {
    if |cands| == 1 then cands[0]
    else
      var rest := LatestStart(cands[1..]);
      if Start(rest) > Start(cands[0]) then rest else cands[0]
  }

  /** `find(r => r.role === role && !r.end_date)`. */
  function FindCurrent(rows: seq<RateRow>, role: string): (r: Option<RateRow>)
    ensures r.Some? ==> r.value in rows && r.value.role == role && r.value.endDate.None?
    ensures r.None? ==> forall x :: x in rows ==> !(x.role == role && x.endDate.None?)
  {
    if |rows| == 0 then None
    else if rows[0].role == role && rows[0].endDate.None? then Some(rows[0])
    else FindCurrent(rows[1..], role)
  }

  /** `pick(role)`: an override in force, else a global row in force, else the
      current global row, else an error. */
  function Pick(role: string, asOf: Date, overrides: seq<RateRow>, globals: seq<RateRow>): Result<real> {
    var candUser := Filter(overrides, CoversAt(role, asOf));
    if |candUser| > 0 then Ok(RateOf(LatestStart(candUser)))
    else
      var candGlobal := Filter(globals, CoversAt(role, asOf));
      if |candGlobal| > 0 then Ok(RateOf(LatestStart(candGlobal)))
      else
        match FindCurrent(globals, role)
        case Some(current) => Ok(RateOf(current))
        case None => Err(500, "이자율 없음: " + role)
  }

  /** `r` is in force for `role` on `asOf` and no row of `rows` in force starts
      later. */
  predicate LatestInForce(r: RateRow, rows: seq<RateRow>, role: string, asOf: Date) {
    r in rows && Covers(r, role, asOf) &&
    forall x :: x in rows && Covers(x, role, asOf) ==> Start(x) <= Start(r)
  }

  lemma CandidatesFacts(rows: seq<RateRow>, role: string, asOf: Date)
    ensures var cands := Filter(rows, CoversAt(role, asOf));
            (forall x :: x in cands <==> x in rows && Covers(x, role, asOf)) &&
            (|cands| > 0 ==> LatestInForce(LatestStart(cands), rows, role, asOf)) &&
            (|cands| == 0 ==> forall x :: x in rows ==> !Covers(x, role, asOf))
  {
    var cands := Filter(rows, CoversAt(role, asOf));
    forall x ensures x in cands <==> x in rows && Covers(x, role, asOf) {
      assert CoversAt(role, asOf)(x) == Covers(x, role, asOf);
    }
  }

  /** The four outcomes of `pick`, in order of precedence. */
  lemma PickFacts(role: string, asOf: Date, overrides: seq<RateRow>, globals: seq<RateRow>)
    ensures (exists r :: r in overrides && Covers(r, role, asOf)) ==>
              exists r :: LatestInForce(r, overrides, role, asOf) &&
                          Pick(role, asOf, overrides, globals) == Ok(RateOf(r))
    ensures (forall r :: r in overrides ==> !Covers(r, role, asOf)) &&
            (exists r :: r in globals && Covers(r, role, asOf)) ==>
              exists r :: LatestInForce(r, globals, role, asOf) &&
                          Pick(role, asOf, overrides, globals) == Ok(RateOf(r))
    ensures (forall r :: r in overrides ==> !Covers(r, role, asOf)) &&
            (forall r :: r in globals ==> !Covers(r, role, asOf)) ==>
              Pick(role, asOf, overrides, globals) ==
                (match FindCurrent(globals, role)
                 case Some(current) => Ok(RateOf(current))
                 case None => Err(500, "이자율 없음: " + role))
    ensures Pick(role, asOf, overrides, globals).Err? <==>
            (forall r :: r in overrides ==> !Covers(r, role, asOf)) &&
            (forall r :: r in globals ==> !Covers(r, role, asOf)) &&
            (forall r :: r in globals ==> !(r.role == role && r.endDate.None?))
  {
    CandidatesFacts(overrides, role, asOf);
    CandidatesFacts(globals, role, asOf);
    var cu := Filter(overrides, CoversAt(role, asOf));
    var cg := Filter(globals, CoversAt(role, asOf));
    if |cu| > 0 {
      assert LatestInForce(LatestStart(cu), overrides, role, asOf);
    } else if |cg| > 0 {
      assert LatestInForce(LatestStart(cg), globals, role, asOf);
    } else {
      if FindCurrent(globals, role).Some? {
        var c := FindCurrent(globals, role).value;
        assert c in globals && c.role == role && c.endDate.None?;
      }
    }
  }

  /** `getActiveRates(asOf, refCode)`: the three roles resolved in turn; the
      first one that fails fails the whole call. Without a ref code no
      override applies. */
  function GetActiveRates(asOf: Date, refCode: Option<string>, userRates: seq<RateRow>, globals: seq<RateRow>)
    : (r: Result<ActiveRates>)
    ensures r.Ok? <==> Pick(ROLE_USER, asOf, if Truthy(refCode) then userRates else [], globals).Ok? &&
                       Pick(ROLE_REFERRAL, asOf, if Truthy(refCode) then userRates else [], globals).Ok? &&
                       Pick(ROLE_CENTER, asOf, if Truthy(refCode) then userRates else [], globals).Ok?
    ensures r.Ok? ==> r.value == ActiveRates(Pick(ROLE_USER, asOf, if Truthy(refCode) then userRates else [], globals).value,
                                             Pick(ROLE_REFERRAL, asOf, if Truthy(refCode) then userRates else [], globals).value,
                                             Pick(ROLE_CENTER, asOf, if Truthy(refCode) then userRates else [], globals).value)
  {
    var overrides := if Truthy(refCode) then userRates else [];
    var u := Pick(ROLE_USER, asOf, overrides, globals);
    if u.Err? then Err(u.status, u.message)
    else
      var f := Pick(ROLE_REFERRAL, asOf, overrides, globals);
      if f.Err? then Err(f.status, f.message)
      else
        var c := Pick(ROLE_CENTER, asOf, overrides, globals);
        if c.Err? then Err(c.status, c.message)
        else Ok(ActiveRates(u.value, f.value, c.value))
  }

  /** A user override beats the global table even when a global row starts
      later. */
  lemma OverrideBeatsGlobal()
    ensures var o := [RateRow(ROLE_USER, Some(50.0), Some(20240101), None)];
            var g := [RateRow(ROLE_USER, Some(60.0), Some(20240601), None)];
            Pick(ROLE_USER, 20240701, o, g) == Ok(50.0)
  {
    var o := [RateRow(ROLE_USER, Some(50.0), Some(20240101), None)];
    assert Filter(o, CoversAt(ROLE_USER, 20240701)) == o by {
      assert o[..0] == [];
    }
  }

  /** With nothing in force, a current global row is used even if it starts
      after `asOf`. */
  lemma FallbackIgnoresStart()
    ensures var g := [RateRow(ROLE_CENTER, Some(24.0), Some(20250101), None)];
            Pick(ROLE_CENTER, 20240701, [], g) == Ok(24.0)
  {
    var g := [RateRow(ROLE_CENTER, Some(24.0), Some(20250101), None)];
    assert Filter(g, CoversAt(ROLE_CENTER, 20240701)) == [] by {
      assert g[..0] == [];
    }
  }

  // ---------------------------------------------------------------------------
  // Outstanding principal.

  /** What investment `inv` adds to `rc`'s principal by the end of `asOf`. */
  function InvestedBy(rc: string, asOf: Date): Investment -> real {
    (inv: Investment) => if inv.refCode == rc && inv.createdDay <= asOf then inv.amount else 0.0
  }

  /** What repayment `r` takes off `rc`'s principal by the end of `asOf`. */
  function RepaidBy(rc: string, asOf: Date): Repayment -> real {
    (r: Repayment) => if r.refCode == rc && r.createdDay <= asOf then r.amount else 0.0
  }

  /** `getOutstandingPrincipal(refCode, asOf)`: invested minus repaid up to the
      end of the day, cut to two decimals and not clamped at zero. */
  function OutstandingPrincipal(rc: string, asOf: Date, invs: seq<Investment>, reps: seq<Repayment>): (p: real)
    ensures var net := Sum(invs, InvestedBy(rc, asOf)) - Sum(reps, RepaidBy(rc, asOf));
            WholeCents(p) && p <= net < p + 0.01
  {
    Truncate2(Sum(invs, InvestedBy(rc, asOf)) - Sum(reps, RepaidBy(rc, asOf)))
  }

  /** Repaying more than was invested gives a negative principal. */
  lemma OutstandingNotClamped()
    ensures var inv := Investment("i1", "HM1", 0.0, 100.0, None, None, 20240101);
            var rep := Repayment("r1", "HM1", None, 150.0, None, 0.0, None, "completed", 20240102);
            OutstandingPrincipal("HM1", 20240105, [inv], [rep]) == -50.0
  {
    var inv := Investment("i1", "HM1", 0.0, 100.0, None, None, 20240101);
    var rep := Repayment("r1", "HM1", None, 150.0, None, 0.0, None, "completed", 20240102);
    assert [inv][..0] == [] && [rep][..0] == [];
    assert Sum([inv], InvestedBy("HM1", 20240105)) == 100.0;
    assert Sum([rep], RepaidBy("HM1", 20240105)) == 150.0;
    assert (-50.0 * 100.0).Floor == -5000;
  }
}
