/** The amount-range classifier of the simulated flows: an amount is in a
    configured range "from-to" when it lies in the closed interval. */
module AmountRanges {
  import opened Values
  import Text
  import opened Decimal

  /** The two configured range strings; `None` when the variable is unset. */
  datatype FlowRanges = FlowRanges(rejected: Option<string>, otp: Option<string>)

  /** `a >= from && a <= to` on parsed numbers, where a NaN operand makes
      every comparison false. */
  predicate Within(a: Option<real>, from: Option<real>, to: Option<real>) {
    a.Some? && from.Some? && to.Some? && from.value <= a.value <= to.value
  }

  /** `const [from, to] = range.split('-')`, each read by `parseFloat`; a
      missing second piece is undefined and reads as NaN. */
  function Bounds(range: string): (b: (Option<real>, Option<real>))
    ensures b.0 == ParseDecimal(Text.Split(range, '-')[0])
    ensures '-' !in range ==> b == (ParseDecimal(range), None)
  {
    var parts := Text.Split(range, '-');
    (ParseFloat(Str(parts[0])), ParseFloat(if |parts| > 1 then Str(parts[1]) else Undefined))
  }

  /** A range "from-to" of two pieces without '-' reads as its two decimals. */
  lemma BoundsOfPair(from: string, to: string)
    requires '-' !in from && '-' !in to
    ensures Bounds(from + "-" + to) == (ParseDecimal(from), ParseDecimal(to))
  {
    assert from + "-" + to == from + ['-'] + to;
    Text.SplitAtFirst(from, '-', to);
  }

  /** `isInRange(amount, range)`. `Ok(None)` is the early `return` (the
      result is undefined); `Ok(Some(b))` is the comparison. An unset range
      takes the default `[]`, which is truthy and has no `split`, so the call
      throws once the amount is truthy. */
  function IsInRange(amount: Value, range: Option<string>): (r: Result<Option<bool>>)
    ensures r.Err? <==> Truthy(amount) && range.None?
    ensures r == Ok(None) <==> !Truthy(amount) || range == Some("")
    ensures r == Ok(Some(true)) <==>
      Truthy(amount) && range.Some? && range.value != "" &&
      Within(ParseFloat(amount), Bounds(range.value).0, Bounds(range.value).1)
  {
    if !Truthy(amount) then Ok(None)
    else match range
      case None => Err(TypeError)
      case Some(s) =>
        if s == "" then Ok(None)
        else
          var (from, to) := Bounds(s);
          Ok(Some(Within(ParseFloat(amount), from, to)))
  }

  /** Whether a classifier answer takes the special branch: only a `true`
      result is truthy. */
  predicate Selected(r: Result<Option<bool>>) {
    r == Ok(Some(true))
  }

  function IsRejectedTransactionFlow(amount: Value, ranges: FlowRanges): Result<Option<bool>> {
    IsInRange(amount, ranges.rejected)
  }

  function IsOTPVerificationFlow(amount: Value, ranges: FlowRanges): Result<Option<bool>> {
    IsInRange(amount, ranges.otp)
  }

  /** The empty string has no readable lower bound. */
  lemma EmptyRangeUnreadable()
    ensures Bounds("").0 == None
  {
    assert Text.Split("", '-') == [""];
  }

  /** Both ends are inclusive: with both bounds readable, the answer is
      exactly `from <= amount <= to`. */
  lemma InclusiveAtBothEnds(amount: Value, range: string, a: real, from: real, to: real)
    requires Truthy(amount) && ParseFloat(amount) == Some(a)
    requires Bounds(range) == (Some(from), Some(to))
    ensures IsInRange(amount, Some(range)) == Ok(Some(from <= a <= to))
  {
    EmptyRangeUnreadable();
    assert range != "";
  }

  /** A range whose lower bound exceeds its upper bound selects nothing. */
  lemma EmptyIntervalSelectsNothing(amount: Value, range: string, from: real, to: real)
    requires Bounds(range) == (Some(from), Some(to)) && from > to
    ensures !Selected(IsInRange(amount, Some(range)))
  {
  }

  /** The configured string for whole-number bounds, such as "10-20". */
  function RangeText(from: nat, to: nat): string {
    NatText(from) + "-" + NatText(to)
  }

  lemma BoundsOfRangeText(from: nat, to: nat)
    ensures Bounds(RangeText(from, to)) == (Some(from as real), Some(to as real))
  {
    NatTextHasNo(from, '-');
    NatTextHasNo(to, '-');
    Text.SplitAtFirst(NatText(from), '-', NatText(to));
    assert RangeText(from, to) == NatText(from) + ['-'] + NatText(to);
    assert Text.Split(NatText(to), '-') == [NatText(to)];
    ParseNatText(from);
    ParseNatText(to);
  }

  /** For whole-number amounts and bounds written as decimal text, the
      classifier decides inclusive interval membership, and nothing else.
      (Any non-empty string is truthy, so even "0" is compared.) */
  lemma WholeNumberRange(amount: nat, from: nat, to: nat)
    ensures IsInRange(Str(NatText(amount)), Some(RangeText(from, to))) == Ok(Some(from <= amount <= to))
  {
    BoundsOfRangeText(from, to);
    ParseNatText(amount);
    InclusiveAtBothEnds(Str(NatText(amount)), RangeText(from, to), amount as real, from as real, to as real);
  }

  /** The answer for a non-empty range depends on its bounds only. */
  lemma SameBoundsSameAnswer(amount: Value, r1: string, r2: string)
    requires r1 != "" && r2 != "" && Bounds(r1) == Bounds(r2)
    ensures IsInRange(amount, Some(r1)) == IsInRange(amount, Some(r2))
  {
  }

  /** Only the first two pieces of the split are used: anything after a
      second '-' is ignored. */
  lemma ExtraPiecesIgnored(amount: Value, from: string, to: string, rest: string)
    requires '-' !in from && '-' !in to
    ensures IsInRange(amount, Some(from + "-" + to + "-" + rest)) == IsInRange(amount, Some(from + "-" + to))
  {
    BoundsIgnoreRest(from, to, rest);
    BoundsOfPair(from, to);
    SameBoundsSameAnswer(amount, from + "-" + to + "-" + rest, from + "-" + to);
  }

  lemma BoundsIgnoreRest(from: string, to: string, rest: string)
    requires '-' !in from && '-' !in to
    ensures Bounds(from + "-" + to + "-" + rest) == (ParseDecimal(from), ParseDecimal(to))
  {
    Text.SplitFirstTwo(from, to, rest, '-');
  }

  /** A range written with a negative lower bound, "-a-b", splits into an
      empty first piece, which reads as NaN: no amount is ever selected. */
  lemma NegativeLowerBoundSelectsNothing(amount: Value, rest: string)
    ensures !Selected(IsInRange(amount, Some("-" + rest)))
  {
    Text.SplitAtFirst("", '-', rest);
    assert "-" + rest == [] + ['-'] + rest;
    assert Text.Split("-" + rest, '-')[0] == "";
    assert ParseDecimal("") == None;
    assert Bounds("-" + rest).0 == None;
  }

  /** An amount in both configured ranges satisfies both flow checks: the
      two checks are independent, and precedence is left to the caller. */
  lemma FlowsAreIndependent(amount: nat, ranges: FlowRanges, rf: nat, rt: nat, of: nat, ot: nat)
    requires ranges.rejected == Some(RangeText(rf, rt)) && ranges.otp == Some(RangeText(of, ot))
    requires rf <= amount <= rt && of <= amount <= ot
    ensures Selected(IsRejectedTransactionFlow(Str(NatText(amount)), ranges))
    ensures Selected(IsOTPVerificationFlow(Str(NatText(amount)), ranges))
  {
    WholeNumberRange(amount, rf, rt);
    WholeNumberRange(amount, of, ot);
  }

  lemma TwoDigitText(n: nat)
    requires 10 <= n < 100
    ensures NatText(n) == [DigitChar(n / 10), DigitChar(n % 10)]
  {
  }

  lemma FifteenInTenToTwenty()
    ensures NatText(15) == "15" && NatText(21) == "21" && RangeText(10, 20) == "10-20"
  {
    TwoDigitText(10);
    TwoDigitText(15);
    TwoDigitText(20);
    TwoDigitText(21);
  }

  lemma FiftyFiveInFiftyToSixty()
    ensures NatText(55) == "55" && RangeText(50, 60) == "50-60"
  {
    TwoDigitText(50);
    TwoDigitText(55);
    TwoDigitText(60);
  }

  /** A rejected range "10-20" selects the amount "15" and not "21". */
  lemma RejectedRangeExample()
    ensures Selected(IsInRange(Str("15"), Some("10-20")))
    ensures !Selected(IsInRange(Str("21"), Some("10-20")))
  {
    FifteenInTenToTwenty();
    WholeNumberRange(15, 10, 20);
    WholeNumberRange(21, 10, 20);
  }

  /** An OTP range "50-60" selects the amount "55". */
  lemma OtpRangeExample()
    ensures Selected(IsInRange(Str("55"), Some("50-60")))
  {
    FiftyFiveInFiftyToSixty();
    WholeNumberRange(55, 50, 60);
  }
}
