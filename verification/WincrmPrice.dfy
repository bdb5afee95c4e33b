/** Seat prices in minor units and their decimal text: bounds, monotonicity and the exact way back. */
module WincrmPrice {
  import opened Common
  import Calendar

  const MAX_AMOUNT: int := 1000000000000
  const MAX_SEATS: int := 10000

  datatype Snapshot = Snapshot(policy: int, monthly: int, yearly: int, extraMonthly: int, extraYearly: int, included: int, graceDays: int)

  predicate ValidSnapshot(s: Snapshot) {
    && 1 <= s.policy <= 2147483646 && 1 <= s.monthly <= 100000000 && 1 <= s.yearly <= 100000000
    && 0 <= s.extraMonthly <= 100000000 && 0 <= s.extraYearly <= 100000000
    && 2 <= s.included <= 10000 && s.graceDays == 3
  }

  datatype Refusal = InvalidSnapshot | InvalidRequest | InvalidAmount

  function BasePrice(s: Snapshot, cycle: Calendar.Period): int {
    if cycle == Calendar.Monthly then s.monthly else s.yearly
  }

  function ExtraPrice(s: Snapshot, cycle: Calendar.Period): int {
    if cycle == Calendar.Monthly then s.extraMonthly else s.extraYearly
  }

  function Price(s: Snapshot, cycle: Calendar.Period, seats: int): Result<int, Refusal> {
    if !ValidSnapshot(s) then Err(InvalidSnapshot)
    else if seats < s.included || seats > MAX_SEATS then Err(InvalidRequest)
    else
      var result := BasePrice(s, cycle) + (seats - s.included) * ExtraPrice(s, cycle);
      if result < 1 || result > MAX_AMOUNT then Err(InvalidRequest) else Ok(result)
  }

  /** A month and a year have their own prices, for the included seats and for each further one. */
  lemma CyclesHaveTheirPrices(s: Snapshot, seats: int)
    requires ValidSnapshot(s) && s.included <= seats <= MAX_SEATS
    ensures Price(s, Calendar.Monthly, seats) == Ok(s.monthly + (seats - s.included) * s.extraMonthly)
    ensures Price(s, Calendar.Yearly, seats) == Ok(s.yearly + (seats - s.included) * s.extraYearly)
  {
    Products(seats - s.included, s.extraMonthly);
    Products(seats - s.included, s.extraYearly);
  }

  /** A price is refused exactly for a broken snapshot or for seats out of range. */
  lemma PricesAreRefusedExactly(s: Snapshot, cycle: Calendar.Period, seats: int)
    ensures Price(s, cycle, seats) == Err(InvalidSnapshot) <==> !ValidSnapshot(s)
    ensures Price(s, cycle, seats) == Err(InvalidRequest) <==> ValidSnapshot(s) && !(s.included <= seats <= 10000)
  {
    if ValidSnapshot(s) && s.included <= seats <= MAX_SEATS {
      PriceIsBounded(s, cycle, seats);
    }
  }

  /** The guards on the result never fire: a price is refused for its inputs only. */
  lemma PriceIsBounded(s: Snapshot, cycle: Calendar.Period, seats: int)
    requires ValidSnapshot(s) && s.included <= seats <= MAX_SEATS
    ensures Price(s, cycle, seats).Ok? && 1 <= Price(s, cycle, seats).value <= 999900000000
  {
    Products(seats - s.included, ExtraPrice(s, cycle));
  }

  lemma Products(extra: int, price: int)
    requires 0 <= extra <= 9998 && 0 <= price <= 100000000
    ensures 0 <= extra * price <= 9998 * 100000000
  {
    assert extra * price <= 9998 * price;
  }

  /** The bound is reached: it is the exact maximum. */
  lemma BoundIsReached()
    ensures Price(Snapshot(1, 100000000, 1, 100000000, 0, 2, 3), Calendar.Monthly, MAX_SEATS) == Ok(999900000000)
  {
  }

  lemma PriceIsMonotone(s: Snapshot, cycle: Calendar.Period, seats: int, more: int)
    requires ValidSnapshot(s) && s.included <= seats <= more <= MAX_SEATS
    ensures Price(s, cycle, seats).Ok? && Price(s, cycle, more).Ok?
    ensures Price(s, cycle, more).value - Price(s, cycle, seats).value == (more - seats) * ExtraPrice(s, cycle)
    ensures Price(s, cycle, seats).value <= Price(s, cycle, more).value
  {
    hide BasePrice, ExtraPrice;
    PriceIsBounded(s, cycle, seats);
    PriceIsBounded(s, cycle, more);
    var p := ExtraPrice(s, cycle);
    assert (more - s.included) * p - (seats - s.included) * p == (more - seats) * p;
    assert p >= 0 by { PriceParts(s, cycle); }
    assert (more - seats) * p >= 0;
  }

  lemma PriceParts(s: Snapshot, cycle: Calendar.Period)
    requires ValidSnapshot(s)
    ensures ExtraPrice(s, cycle) >= 0
  {
  }

  // ---------------------------------------------------------------- decimal text

  predicate Digits(t: string) {
    forall i | 0 <= i < |t| :: '0' <= t[i] <= '9'
  }

  function DigitChar(d: int): char
    requires 0 <= d < 10
  {
    '0' + d as char
  }

  function DigitValue(c: char): int {
    c as int - '0' as int
  }

  function Text(n: nat): (t: string)
    ensures t != [] && Digits(t)
  {
    if n < 10 then [DigitChar(n)] else Text(n / 10) + [DigitChar(n % 10)]
  }

  function Number(t: string): int {
    if t == [] then 0 else 10 * Number(t[..|t| - 1]) + DigitValue(t[|t| - 1])
  }

  lemma {:induction false} TextRoundTrips(n: nat)
    ensures Number(Text(n)) == n
  {
    if n < 10 {
      assert Number([]) == 0;
      assert Text(n)[..0] == [];
    } else {
      TextRoundTrips(n / 10);
      assert Text(n)[..|Text(n)| - 1] == Text(n / 10);
    }
  }

  function PadStart(t: string): string {
    if |t| < 2 then "0" + t else t
  }

  function Decimal(minor: int): Result<string, Refusal> {
    if minor < 1 || minor > MAX_AMOUNT then Err(InvalidAmount)
    else Ok(Text(minor / 100) + "." + PadStart(Text(minor % 100)))
  }

  /** The minor amount that a decimal text with two places stands for. */
  function Parse(t: string): Option<int> {
    if |t| < 4 || t[|t| - 3] != '.' || !Digits(t[..|t| - 3]) || !Digits(t[|t| - 2..]) then None
    else Some(100 * Number(t[..|t| - 3]) + Number(t[|t| - 2..]))
  }

  lemma CentsHaveTwoDigits(n: nat)
    requires n < 100
    ensures |PadStart(Text(n))| == 2 && Digits(PadStart(Text(n))) && Number(PadStart(Text(n))) == n
  {
    TextRoundTrips(n);
    if n < 10 {
      var t := Text(n);
      assert |t| == 1;
      assert ("0" + t)[..1] == "0" && "0"[..0] == "";
      assert Number("0") == 0;
      assert t[..0] == "" && Number("") == 0;
    } else {
      assert |Text(n / 10)| == 1;
    }
  }

  /** Every valid amount has a decimal text, and reading it gives back the exact amount. */
  lemma DecimalRoundTrips(minor: int)
    requires 1 <= minor <= MAX_AMOUNT
    ensures Decimal(minor).Ok? && Parse(Decimal(minor).value) == Some(minor)
  {
    hide Text, Number, PadStart, Digits;
    var whole, cents := Text(minor / 100), PadStart(Text(minor % 100));
    TextRoundTrips(minor / 100);
    CentsHaveTwoDigits(minor % 100);
    var t := Decimal(minor).value;
    assert |t| == |whole| + 3 && t[..|t| - 3] == whole && t[|t| - 2..] == cents && t[|t| - 3] == '.';
  }

  /** Every price has a text, and no two prices share one. */
  lemma PricesHaveTexts(s: Snapshot, cycle: Calendar.Period, seats: int)
    requires ValidSnapshot(s) && s.included <= seats <= MAX_SEATS
    ensures Price(s, cycle, seats).Ok? && Decimal(Price(s, cycle, seats).value).Ok?
    ensures Parse(Decimal(Price(s, cycle, seats).value).value) == Some(Price(s, cycle, seats).value)
  {
    hide Price, Decimal, Parse;
    PriceIsBounded(s, cycle, seats);
    DecimalRoundTrips(Price(s, cycle, seats).value);
  }
}
