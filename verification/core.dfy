/**
 The line classifier and the record handlers of pkg/core/core.go. Each
 handler is a pure transition of the scan-local account set.

 The Go code panics on a line with too few tokens and on a DAILY or trade
 line with a valid date when no strategy is current; these are
 preconditions here (`LineSafe`).
 */
module Core {
  import opened Wrappers
  import opened Strings
  import opened Strconv
  import opened Model
  import opened Converters

  /* The eight record tags. Their spelling is defined outside this model;
  all that matters is that they are pairwise distinct. */
  datatype Tags = Tags(
    info: string,
    daily: string,
    longEntry: string,
    longExit: string,
    shortEntry: string,
    shortExit: string,
    longShort: string,
    shortLong: string)
  {
    function TradeTags(): set<string> {
      {longEntry, longExit, shortEntry, shortExit, longShort, shortLong}
    }

    function All(): seq<string> {
      [info, daily, longEntry, longExit, shortEntry, shortExit, longShort, shortLong]
    }

    predicate Distinct() {
      forall i, j :: 0 <= i < j < |All()| ==> All()[i] != All()[j]
    }
  }

  /* What the pipeline needs from outside: the tag spellings and the float
  parser (Go's `strconv.ParseFloat(s, 64)`, None for a non-nil error). */
  datatype Env = Env(tags: Tags, parseFloat: string -> Option<real>)

  /* The record types a line can carry; `Unknown` lines are dropped. */
  datatype RecordKind = Info | Daily | Trade | Unknown

  const Delimiter: char := '|'

  /* The token list of a line; never empty. */
  function Tokens(line: string): seq<string> {
    Split(line, Delimiter)
  }

  /* The `switch` of `handleLine` on the first token. */
  function Classify(tags: Tags, tag: string): (k: RecordKind)
    ensures k == Info <==> tag == tags.info
    ensures k == Unknown <==> tag !in tags.All()
    ensures tags.Distinct() ==> (k == Daily <==> tag == tags.daily)
    ensures tags.Distinct() ==> (k == Trade <==> tag in tags.TradeTags())
  {
    assert tags.All()[0] == tags.info && tags.All()[1] == tags.daily;
    assert tags.Distinct() ==> tags.info != tags.daily && tags.info !in tags.TradeTags() && tags.daily !in tags.TradeTags() by {
      if tags.Distinct() {
        var a := tags.All();
        assert a[0] != a[1];
        assert forall j :: 2 <= j < 8 ==> a[0] != a[j] && a[1] != a[j];
        assert tags.TradeTags() == {a[2], a[3], a[4], a[5], a[6], a[7]};
      }
    }
    if tag == tags.info then Info
    else if tag == tags.daily then Daily
    else if tag in tags.TradeTags() then Trade
    else Unknown
  }

  /* The strategy an INFO line names: account code (token 1) and strategy
  name (token 3). */
  function InfoKey(tokens: seq<string>): StrategyKey
    requires |tokens| >= 4
  {
    StrategyKey(tokens[1], tokens[3])
  }

  /*
   `handleInfo`: looks up or creates the account (token 1) and, within it,
   the strategy (token 3, with ticker token 2). An entity that exists is
   never replaced. Each cursor moves only when its entity is created, so an
   INFO line naming an existing account and strategy changes nothing at all.
   */
  function HandleInfo(s: AccountSet, tokens: seq<string>): (r: AccountSet)
    requires |tokens| >= 4
    ensures r.Lookup(InfoKey(tokens)).Some?
    ensures r.accounts.Keys == s.accounts.Keys + {tokens[1]}
    ensures s.Lookup(InfoKey(tokens)).Some? ==> r == s
    ensures s.Lookup(InfoKey(tokens)).None? ==>
      r.Lookup(InfoKey(tokens)) == Some(Strategy(tokens[3], tokens[2], [], []))
    ensures forall k :: k != InfoKey(tokens) ==> r.Lookup(k) == s.Lookup(k)
    ensures forall c :: c in s.accounts ==>
      r.accounts[c] == s.accounts[c].(strategies := r.accounts[c].strategies)
    ensures tokens[1] !in s.accounts ==>
      r.accounts[tokens[1]] == Account(tokens[1], 0.0, 0.0, map[tokens[3] := Strategy(tokens[3], tokens[2], [], [])])
    ensures r.currAccount == (if tokens[1] in s.accounts then s.currAccount else Some(tokens[1]))
    ensures r.currStrategy == (if s.Lookup(InfoKey(tokens)).Some? then s.currStrategy else Some(InfoKey(tokens)))
  {
    var code, ticker, name := tokens[1], tokens[2], tokens[3];
    var (accounts, currAccount) :=
      if code in s.accounts then (s.accounts, s.currAccount)
      else (s.accounts[code := NewAccount().(code := code)], Some(code));
    var acc := accounts[code];
    if name in acc.strategies then
      s.(accounts := accounts, currAccount := currAccount)
    else
      var st := NewStrategy().(name := name, ticker := ticker);
      AccountSet(accounts[code := acc.(strategies := acc.strategies[name := st])],
                 currAccount, Some(StrategyKey(code, name)))
  }

  /* The record a DAILY line with a valid date appends, stated field by
  field: a field whose token does not parse stays zero. */
  function ExpectedDaily(parseFloat: string -> Option<real>, tokens: seq<string>): DailyInfo
    requires |tokens| >= 8
  {
    DailyInfo(
      day := ConvertDate(tokens[1]),
      openProfit := RealOrZero(parseFloat, tokens[2]),
      closeProfit := RealOrZero(parseFloat, tokens[3]),
      numTrades := IntOrZero(tokens[5]),
      trueRange := RealOrZero(parseFloat, tokens[4]),
      equity := RealOrZero(parseFloat, tokens[6]),
      balance := RealOrZero(parseFloat, tokens[7]))
  }

  /* The record a trade line with a valid date appends: its type is the tag. */
  function ExpectedTrade(parseFloat: string -> Option<real>, tokens: seq<string>): TradeInfo
    requires |tokens| >= 7
  {
    TradeInfo(
      tradeType := tokens[0],
      day := ConvertDate(tokens[1]),
      time := IntOrZero(tokens[2]),
      position := IntOrZero(tokens[3]),
      price := RealOrZero(parseFloat, tokens[4]),
      positionAtBroker := IntOrZero(tokens[5]),
      priceAtBroker := RealOrZero(parseFloat, tokens[6]))
  }

  /* The DAILY record as `handleDaily` builds it: a zero record, the day,
  then each converter in turn. */
  function BuildDaily(parseFloat: string -> Option<real>, day: int, tokens: seq<string>): (di: DailyInfo)
    requires |tokens| >= 8
    ensures day == ConvertDate(tokens[1]) ==> di == ExpectedDaily(parseFloat, tokens)
  {
    var di := NewDailyInfo().(day := day);
    var di := ConvertOpenProfit(parseFloat, di, tokens[2]);
    var di := ConvertCloseProfit(parseFloat, di, tokens[3]);
    var di := ConvertTrueRange(parseFloat, di, tokens[4]);
    var di := ConvertNumTrades(di, tokens[5]);
    var di := ConvertEquity(parseFloat, di, tokens[6]);
    ConvertBalance(parseFloat, di, tokens[7])
  }

  /* The trade record as `handleTrade` builds it. */
  function BuildTrade(parseFloat: string -> Option<real>, day: int, tokens: seq<string>): (ti: TradeInfo)
    requires |tokens| >= 7
    ensures day == ConvertDate(tokens[1]) ==> ti == ExpectedTrade(parseFloat, tokens)
  {
    var ti := NewTradeInfo().(tradeType := tokens[0], day := day);
    var ti := ConvertTime(ti, tokens[2]);
    var ti := ConvertPosition(ti, tokens[3]);
    var ti := ConvertPrice(parseFloat, ti, tokens[4]);
    var ti := ConvertPositionAtBroker(ti, tokens[5]);
    ConvertPriceAtBroker(parseFloat, ti, tokens[6])
  }

  /* Everything of `s` but the current strategy is in `r` unchanged: no
  other strategy, no account field, no cursor. */
  ghost predicate OnlyCurrentChanged(s: AccountSet, r: AccountSet)
    requires s.HasCurrent()
  {
    && r.currAccount == s.currAccount
    && r.currStrategy == s.currStrategy
    && r.accounts.Keys == s.accounts.Keys
    && (forall c :: c in s.accounts ==>
          r.accounts[c] == s.accounts[c].(strategies := r.accounts[c].strategies))
    && (forall c :: c in s.accounts ==> r.accounts[c].strategies.Keys == s.accounts[c].strategies.Keys)
    && (forall k :: k != s.currStrategy.value ==> r.Lookup(k) == s.Lookup(k))
  }

  /*
   `handleDaily`: a line whose date (token 1) converts to 0 changes nothing;
   otherwise exactly one record is appended to the current strategy's daily
   list, duplicates of a day included.
   */
  function HandleDaily(parseFloat: string -> Option<real>, s: AccountSet, tokens: seq<string>): (r: AccountSet)
    requires |tokens| >= 8
    requires ConvertDate(tokens[1]) != 0 ==> s.HasCurrent()
    ensures ConvertDate(tokens[1]) == 0 ==> r == s
    ensures ConvertDate(tokens[1]) != 0 ==>
      && OnlyCurrentChanged(s, r)
      && r.Lookup(s.currStrategy.value) ==
           Some(s.Current().(dailyInfo := s.Current().dailyInfo + [ExpectedDaily(parseFloat, tokens)]))
  {
    var day := ConvertDate(tokens[1]);
    if day == 0 then s
    else
      var st := s.Current();
      ReplaceCurrent(s, st.(dailyInfo := st.dailyInfo + [BuildDaily(parseFloat, day, tokens)]))
  }

  /*
   `handleTrade`: a line whose date (token 1) converts to 0 changes nothing;
   otherwise exactly one trade is appended at the end of the current
   strategy's trade list.
   */
  function HandleTrade(parseFloat: string -> Option<real>, s: AccountSet, tokens: seq<string>): (r: AccountSet)
    requires |tokens| >= 7
    requires ConvertDate(tokens[1]) != 0 ==> s.HasCurrent()
    ensures ConvertDate(tokens[1]) == 0 ==> r == s
    ensures ConvertDate(tokens[1]) != 0 ==>
      && OnlyCurrentChanged(s, r)
      && r.Lookup(s.currStrategy.value) ==
           Some(s.Current().(tradeInfo := s.Current().tradeInfo + [ExpectedTrade(parseFloat, tokens)]))
  {
    var day := ConvertDate(tokens[1]);
    if day == 0 then s
    else
      var st := s.Current();
      ReplaceCurrent(s, st.(tradeInfo := st.tradeInfo + [BuildTrade(parseFloat, day, tokens)]))
  }

  /* INFO only adds: the set grows, keeps its invariant, and a created
  account starts with zero balance and equity. */
  lemma HandleInfoGrows(s: AccountSet, tokens: seq<string>)
    requires |tokens| >= 4
    ensures Extends(s, HandleInfo(s, tokens))
    ensures s.Valid() ==> HandleInfo(s, tokens).Valid()
    ensures BalancesZero(s) ==> BalancesZero(HandleInfo(s, tokens))
  {
    var r := HandleInfo(s, tokens);
    if s.Valid() {
      forall c, n | c in r.accounts && n in r.accounts[c].strategies
        ensures r.accounts[c].strategies[n].name == n
      {
        assert r.Lookup(StrategyKey(c, n)).Some?;
        if StrategyKey(c, n) != InfoKey(tokens) {
          assert s.Lookup(StrategyKey(c, n)) == r.Lookup(StrategyKey(c, n));
        }
      }
      if r.currStrategy.Some? && r.currStrategy.value != InfoKey(tokens) {
        assert r.Lookup(r.currStrategy.value) == s.Lookup(r.currStrategy.value);
      }
    }
  }

  /* Appending to the current strategy only: the set grows and keeps its
  invariant and its balances. */
  lemma AppendToCurrentGrows(s: AccountSet, r: AccountSet)
    requires s.HasCurrent() && OnlyCurrentChanged(s, r)
    requires r.Lookup(s.currStrategy.value).Some?
    requires r.Current().name == s.Current().name && r.Current().ticker == s.Current().ticker
    requires s.Current().dailyInfo <= r.Current().dailyInfo
    requires s.Current().tradeInfo <= r.Current().tradeInfo
    ensures Extends(s, r)
    ensures s.Valid() ==> r.Valid()
    ensures BalancesZero(s) ==> BalancesZero(r)
  {
    var cur := s.currStrategy.value;
    forall k | s.Lookup(k).Some?
      ensures r.Lookup(k).Some?
    {
      if k != cur { assert r.Lookup(k) == s.Lookup(k); }
    }
    if s.Valid() {
      forall c, n | c in r.accounts && n in r.accounts[c].strategies
        ensures r.accounts[c].strategies[n].name == n
      {
        assert r.Lookup(StrategyKey(c, n)).Some?;
        if StrategyKey(c, n) != cur {
          assert s.Lookup(StrategyKey(c, n)) == r.Lookup(StrategyKey(c, n));
        } else {
          assert s.Lookup(cur).Some?;
        }
      }
    }
  }

  lemma HandleDailyGrows(parseFloat: string -> Option<real>, s: AccountSet, tokens: seq<string>)
    requires |tokens| >= 8
    requires ConvertDate(tokens[1]) != 0 ==> s.HasCurrent()
    ensures Extends(s, HandleDaily(parseFloat, s, tokens))
    ensures s.Valid() ==> HandleDaily(parseFloat, s, tokens).Valid()
    ensures BalancesZero(s) ==> BalancesZero(HandleDaily(parseFloat, s, tokens))
  {
    if ConvertDate(tokens[1]) != 0 {
      AppendToCurrentGrows(s, HandleDaily(parseFloat, s, tokens));
    }
  }

  lemma HandleTradeGrows(parseFloat: string -> Option<real>, s: AccountSet, tokens: seq<string>)
    requires |tokens| >= 7
    requires ConvertDate(tokens[1]) != 0 ==> s.HasCurrent()
    ensures Extends(s, HandleTrade(parseFloat, s, tokens))
    ensures s.Valid() ==> HandleTrade(parseFloat, s, tokens).Valid()
    ensures BalancesZero(s) ==> BalancesZero(HandleTrade(parseFloat, s, tokens))
  {
    if ConvertDate(tokens[1]) != 0 {
      AppendToCurrentGrows(s, HandleTrade(parseFloat, s, tokens));
    }
  }

  /* `handleLine` does not panic on `line` in state `s`. */
  predicate LineSafe(env: Env, s: AccountSet, line: string) {
    var tokens := Tokens(line);
    match Classify(env.tags, tokens[0])
    case Info => |tokens| >= 4
    case Daily => |tokens| >= 8 && (ConvertDate(tokens[1]) != 0 ==> s.HasCurrent())
    case Trade => |tokens| >= 7 && (ConvertDate(tokens[1]) != 0 ==> s.HasCurrent())
    case Unknown => true
  }

  /*
   `handleLine`: splits on '|' and dispatches on the first token; a line
   with an unknown tag leaves the account set unchanged. Whatever the line,
   the account set only grows, keeps its invariant, and no balance or
   equity is ever written.
   */
  function HandleLine(env: Env, s: AccountSet, line: string): (r: AccountSet)
    requires LineSafe(env, s, line)
    ensures Extends(s, r)
    ensures s.Valid() ==> r.Valid()
    ensures BalancesZero(s) ==> BalancesZero(r)
  {
    var tokens := Tokens(line);
    match Classify(env.tags, tokens[0])
    case Info =>
      HandleInfoGrows(s, tokens);
      HandleInfo(s, tokens)
    case Daily =>
      HandleDailyGrows(env.parseFloat, s, tokens);
      HandleDaily(env.parseFloat, s, tokens)
    case Trade =>
      HandleTradeGrows(env.parseFloat, s, tokens);
      HandleTrade(env.parseFloat, s, tokens)
    case Unknown => s
  }

  /* A line built from tokens free of '|' splits back into those tokens. */
  lemma TokensOfJoin(parts: seq<string>)
    requires |parts| >= 1 && NoSep(parts, Delimiter)
    ensures Tokens(Join(parts, Delimiter)) == parts
  {
    SplitJoin(parts, Delimiter);
  }

  /* A line written as tokens free of '|' goes to the handler its first
  token names, with exactly those tokens; an unknown tag is a no-op. */
  lemma HandleLineDispatch(env: Env, s: AccountSet, parts: seq<string>)
    requires |parts| >= 1 && NoSep(parts, Delimiter)
    requires LineSafe(env, s, Join(parts, Delimiter))
    ensures var line, c := Join(parts, Delimiter), Classify(env.tags, parts[0]);
      && Tokens(line) == parts
      && (c == Unknown ==> HandleLine(env, s, line) == s)
      && (c == Info ==> HandleLine(env, s, line) == HandleInfo(s, parts))
      && (c == Daily ==> HandleLine(env, s, line) == HandleDaily(env.parseFloat, s, parts))
      && (c == Trade ==> HandleLine(env, s, line) == HandleTrade(env.parseFloat, s, parts))
  {
    TokensOfJoin(parts);
  }
}
