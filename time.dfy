/**
 * The opening-hours predicate. The current time of day in India Standard Time is a
 * parameter: minutes since midnight, as hour × 60 + minute.
 */
module Time {
  import opened Text
  import opened CanteenModel

  /**
   * An "H:M" clock string in minutes since midnight: the first two ':'-separated
   * fields read with Number, a missing minute field read as 0, NaN when a field is not a number.
   */
  function ClockMinutes(s: string): (r: JsNumber)
    ensures r.Finite? ==> r.v >= 0
  {
    var fields := Split(s, ':');
    var h := ToNumber(fields[0]);
    var m := if |fields| >= 2 then ToNumber(fields[1]) else Finite(0);
    if h.Finite? && m.Finite? then Finite(h.v * 60 + m.v) else NaN
  }

  /** `now` lies in the window, both ends included; a comparison with NaN is false. */
  predicate WithinHours(openTime: string, closeTime: string, now: int) {
    var open := ClockMinutes(openTime);
    var close := ClockMinutes(closeTime);
    open.Finite? && close.Finite? && open.v <= now && now <= close.v
  }

  /** Whether a canteen is open at `now` (minutes since midnight): a falsy flag closes it, missing hours leave it open. */
  function IsCanteenOpen(c: Canteen, now: int): (r: bool)
    ensures !OpenTruthy(c.isOpen) ==> !r
    ensures OpenTruthy(c.isOpen) && (c.openingTime == [] || c.closingTime == []) ==> r
    ensures c.openingTime != [] && c.closingTime != [] ==> (r <==> OpenTruthy(c.isOpen) && WithinHours(c.openingTime, c.closingTime, now))
  {
    if !OpenTruthy(c.isOpen) then false
    else if c.openingTime == [] || c.closingTime == [] then true
    else WithinHours(c.openingTime, c.closingTime, now)
  }

  lemma TrimOfDigits(s: string)
    requires AllDigits(s)
    ensures Trim(s) == s
  {
    if s != [] {
      assert !IsWhitespace(s[0]) && !IsWhitespace(s[|s| - 1]);
    }
    TrimOfTrimmed(s);
  }

  lemma SplitClock(h: string, m: string)
    requires AllDigits(h) && AllDigits(m)
    ensures Split(h + ":" + m, ':') == [h, m]
  {
    NonDigitAbsent(h, ':');
    NonDigitAbsent(m, ':');
    SplitAtFirstSeparator(h, ':', m);
    SplitWithoutSeparator(m, ':');
    assert h + ":" + m == h + [':'] + m;
  }

  lemma ToNumberOfDigits(s: string)
    requires AllDigits(s)
    ensures ToNumber(s) == Finite(DigitsValue(s))
  {
    TrimOfDigits(s);
  }

  lemma ClockOfFields(s: string, h: string, m: string)
    requires Split(s, ':') == [h, m] && ToNumber(h).Finite? && ToNumber(m).Finite?
    ensures ClockMinutes(s) == Finite(ToNumber(h).v * 60 + ToNumber(m).v)
  {
  }

  /** "H:M" with decimal fields is H × 60 + M minutes. */
  lemma ClockOfDigits(h: string, m: string)
    requires AllDigits(h) && AllDigits(m)
    ensures ClockMinutes(h + ":" + m) == Finite(DigitsValue(h) * 60 + DigitsValue(m))
  {
    SplitClock(h, m);
    ToNumberOfDigits(h);
    ToNumberOfDigits(m);
    ClockOfFields(h + ":" + m, h, m);
  }

  /** A clock string without a minute field is whole hours. */
  lemma ClockOfHourOnly(h: string)
    requires AllDigits(h)
    ensures ClockMinutes(h) == Finite(DigitsValue(h) * 60)
  {
    NonDigitAbsent(h, ':');
    SplitWithoutSeparator(h, ':');
    ToNumberOfDigits(h);
    assert Split(h, ':') == [h];
  }

  /** Rendering hours and minutes as "H:M" and reading the string back gives H × 60 + M. */
  lemma ClockRoundTrip(h: nat, m: nat)
    ensures ClockMinutes(NatToString(h) + ":" + NatToString(m)) == Finite(h * 60 + m)
  {
    ClockOfDigits(NatToString(h), NatToString(m));
    DigitsOfNatToString(h);
    DigitsOfNatToString(m);
  }

  /** A window that closes before it opens (an overnight window) is never open. */
  lemma OvernightWindowNeverOpen(c: Canteen, now: int)
    requires c.openingTime != [] && c.closingTime != []
    requires ClockMinutes(c.closingTime).Finite? && ClockMinutes(c.openingTime).Finite?
    requires ClockMinutes(c.closingTime).v < ClockMinutes(c.openingTime).v
    ensures !IsCanteenOpen(c, now)
  {
  }

  /** An open canteen with both hours set is open at its opening minute and at its closing minute. */
  lemma WindowIncludesBothEnds(c: Canteen)
    requires OpenTruthy(c.isOpen) && c.openingTime != [] && c.closingTime != []
    requires ClockMinutes(c.closingTime).Finite? && ClockMinutes(c.openingTime).Finite?
    requires ClockMinutes(c.openingTime).v <= ClockMinutes(c.closingTime).v
    ensures IsCanteenOpen(c, ClockMinutes(c.openingTime).v)
    ensures IsCanteenOpen(c, ClockMinutes(c.closingTime).v)
  {
  }
}
