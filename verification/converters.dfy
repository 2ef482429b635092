/**
 The field converters of pkg/core/core.go: the date converter, and one
 converter per numeric field of a daily or trade record. A numeric converter
 writes its field only when the token parses; otherwise the record is left as
 it was (the Go code only logs). Float parsing (`strconv.ParseFloat`) is not
 modelled: it is the `parseFloat` parameter.
 */
module Converters {
  import opened Wrappers
  import opened Strings
  import opened Strconv
  import opened Model

  /* The range of dates the pipeline accepts, as YYYYMMDD. */
  const MinDay: int := 20000000
  const MaxDay: int := 30000000

  /* `convertDate`: DD/MM/YYYY to the integer YYYYMMDD, or 0 when the input
  does not split on '/' into three pieces, when the pieces glued together as
  YYYY+MM+DD do not parse as a 32-bit integer, or when the value lies outside
  [MinDay, MaxDay]. No padding or calendar check is made. */
  function ConvertDate(s: string): (r: int)
    ensures r == 0 || MinDay <= r <= MaxDay
    ensures |Split(s, '/')| != 3 ==> r == 0
  {
    var pieces := Split(s, '/');
    if |pieces| != 3 then 0
    else
      match ParseInt32(pieces[2] + pieces[1] + pieces[0])
      case None => 0
      case Some(v) => if v < MinDay || v > MaxDay then 0 else v
  }

  /* The range check applied to a parsed date. */
  function InDayRange(v: int): int {
    if MinDay <= v <= MaxDay then v else 0
  }

  lemma {:induction false} Pow10Monotonic(m: nat, n: nat)
    requires m <= n
    ensures Pow10(m) <= Pow10(n)
    decreases n
  {
    if m < n {
      Pow10Monotonic(m, n - 1);
    }
  }

  lemma DigitsHaveNoSlash(s: string)
    requires IsDigits(s)
    ensures '/' !in s
  {
  }

  /* On three pieces of digits, convertDate is exactly the range check of the
  value of YYYY+MM+DD, whatever the pieces' lengths: no padding is required,
  extra leading zeros are read through, and a glued value too large for 32
  bits gives 0 like any other value outside the range. */
  lemma ConvertDateOfDigits(dd: string, mm: string, yyyy: string)
    requires IsDigits(dd) && IsDigits(mm) && IsDigits(yyyy)
    ensures IsDigits(yyyy + mm + dd)
    ensures ConvertDate(Join([dd, mm, yyyy], '/')) == InDayRange(DigitsValue(yyyy + mm + dd))
  {
    var parts := [dd, mm, yyyy];
    DigitsHaveNoSlash(dd);
    DigitsHaveNoSlash(mm);
    DigitsHaveNoSlash(yyyy);
    assert NoSep(parts, '/');
    SplitJoin(parts, '/');
    DigitsAppend(yyyy, mm);
    DigitsAppend(yyyy + mm, dd);
  }

  /* The date DD/MM/YYYY with a two-digit day and month and a four-digit
  year, zero-padded. */
  function FormatDate(day: nat, month: nat, year: nat): string
    requires day < 100 && month < 100 && year < 10000
  {
    Join([PadNat(day, 2), PadNat(month, 2), PadNat(year, 4)], '/')
  }

  /* Round trip: a zero-padded DD/MM/YYYY converts to YYYYMMDD whenever that
  value is in range, and to 0 otherwise. There is no calendar check, so
  month 13 or day 0 pass. */
  lemma ConvertFormatDate(day: nat, month: nat, year: nat)
    requires day < 100 && month < 100 && year < 10000
    ensures ConvertDate(FormatDate(day, month, year)) == InDayRange(year * 10000 + month * 100 + day)
  {
    var dd, mm, yyyy := PadNat(day, 2), PadNat(month, 2), PadNat(year, 4);
    ConvertDateOfDigits(dd, mm, yyyy);
    DigitsValueAppend(yyyy, mm);
    DigitsValueAppend(yyyy + mm, dd);
  }

  /* Every year of the accepted range round-trips exactly. */
  lemma ConvertFormatDateInRange(day: nat, month: nat, year: nat)
    requires day < 100 && month < 100 && 2000 <= year <= 2999
    ensures ConvertDate(FormatDate(day, month, year)) == year * 10000 + month * 100 + day
  {
    ConvertFormatDate(day, month, year);
  }

  /* The value an integer field ends with when it starts at zero. */
  function IntOrZero(s: string): int {
    ParseInt32(s).GetOr(0)
  }

  /* The value a float field ends with when it starts at zero. */
  function RealOrZero(parseFloat: string -> Option<real>, s: string): real {
    parseFloat(s).GetOr(0.0)
  }

  /* `convertOpenProfit`. */
  function ConvertOpenProfit(parseFloat: string -> Option<real>, di: DailyInfo, s: string): (r: DailyInfo)
    ensures r.openProfit == parseFloat(s).GetOr(di.openProfit)
    ensures r.(openProfit := di.openProfit) == di
  {
    match parseFloat(s)
    case Some(v) => di.(openProfit := v)
    case None => di
  }

  /* `convertCloseProfit`. */
  function ConvertCloseProfit(parseFloat: string -> Option<real>, di: DailyInfo, s: string): (r: DailyInfo)
    ensures r.closeProfit == parseFloat(s).GetOr(di.closeProfit)
    ensures r.(closeProfit := di.closeProfit) == di
  {
    match parseFloat(s)
    case Some(v) => di.(closeProfit := v)
    case None => di
  }

  /* `convertTrueRange`. */
  function ConvertTrueRange(parseFloat: string -> Option<real>, di: DailyInfo, s: string): (r: DailyInfo)
    ensures r.trueRange == parseFloat(s).GetOr(di.trueRange)
    ensures r.(trueRange := di.trueRange) == di
  {
    match parseFloat(s)
    case Some(v) => di.(trueRange := v)
    case None => di
  }

  /* `convertNumTrades`: a 32-bit integer or nothing. */
  function ConvertNumTrades(di: DailyInfo, s: string): (r: DailyInfo)
    ensures r.numTrades == ParseInt32(s).GetOr(di.numTrades)
    ensures ParseInt32(s).Some? ==> MinInt32 <= r.numTrades <= MaxInt32
    ensures r.(numTrades := di.numTrades) == di
  {
    match ParseInt32(s)
    case Some(v) => di.(numTrades := v)
    case None => di
  }

  /* `convertEquity`. */
  function ConvertEquity(parseFloat: string -> Option<real>, di: DailyInfo, s: string): (r: DailyInfo)
    ensures r.equity == parseFloat(s).GetOr(di.equity)
    ensures r.(equity := di.equity) == di
  {
    match parseFloat(s)
    case Some(v) => di.(equity := v)
    case None => di
  }

  /* `convertBalance`: a literal zero is written like any other value. */
  function ConvertBalance(parseFloat: string -> Option<real>, di: DailyInfo, s: string): (r: DailyInfo)
    ensures r.balance == parseFloat(s).GetOr(di.balance)
    ensures r.(balance := di.balance) == di
  {
    match parseFloat(s)
    case Some(v) => di.(balance := v)
    case None => di
  }

  /* `convertTime`: a 32-bit integer or nothing. */
  function ConvertTime(ti: TradeInfo, s: string): (r: TradeInfo)
    ensures r.time == ParseInt32(s).GetOr(ti.time)
    ensures ParseInt32(s).Some? ==> MinInt32 <= r.time <= MaxInt32
    ensures r.(time := ti.time) == ti
  {
    match ParseInt32(s)
    case Some(v) => ti.(time := v)
    case None => ti
  }

  /* `convertPosition`: a 32-bit integer or nothing. */
  function ConvertPosition(ti: TradeInfo, s: string): (r: TradeInfo)
    ensures r.position == ParseInt32(s).GetOr(ti.position)
    ensures ParseInt32(s).Some? ==> MinInt32 <= r.position <= MaxInt32
    ensures r.(position := ti.position) == ti
  {
    match ParseInt32(s)
    case Some(v) => ti.(position := v)
    case None => ti
  }

  /* `convertPrice`. */
  function ConvertPrice(parseFloat: string -> Option<real>, ti: TradeInfo, s: string): (r: TradeInfo)
    ensures r.price == parseFloat(s).GetOr(ti.price)
    ensures r.(price := ti.price) == ti
  {
    match parseFloat(s)
    case Some(v) => ti.(price := v)
    case None => ti
  }

  /* `convertPositionAtBroker`: a 32-bit integer or nothing. */
  function ConvertPositionAtBroker(ti: TradeInfo, s: string): (r: TradeInfo)
    ensures r.positionAtBroker == ParseInt32(s).GetOr(ti.positionAtBroker)
    ensures ParseInt32(s).Some? ==> MinInt32 <= r.positionAtBroker <= MaxInt32
    ensures r.(positionAtBroker := ti.positionAtBroker) == ti
  {
    match ParseInt32(s)
    case Some(v) => ti.(positionAtBroker := v)
    case None => ti
  }

  /* `convertPriceAtBroker`. */
  function ConvertPriceAtBroker(parseFloat: string -> Option<real>, ti: TradeInfo, s: string): (r: TradeInfo)
    ensures r.priceAtBroker == parseFloat(s).GetOr(ti.priceAtBroker)
    ensures r.(priceAtBroker := ti.priceAtBroker) == ti
  {
    match parseFloat(s)
    case Some(v) => ti.(priceAtBroker := v)
    case None => ti
  }
}
