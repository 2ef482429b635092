/**
 The data model of pkg/model/account.go as immutable values. The Go code
 links entities by pointers; here the account set owns every entity by key
 (account code, then strategy name) and its two cursors are keys too. This is
 faithful because the pipeline never removes or replaces an entity once it
 exists.
 */
module Model {
  import opened Wrappers

  /* One calendar day of a strategy, `day` as YYYYMMDD. The field set is the
  one the DAILY handler writes (it includes equity and balance). */
  datatype DailyInfo = DailyInfo(
    day: int,
    openProfit: real,
    closeProfit: real,
    numTrades: int,
    trueRange: real,
    equity: real,
    balance: real)

  /* One trade event, in arrival order. */
  datatype TradeInfo = TradeInfo(
    tradeType: string,
    day: int,
    time: int,
    position: int,
    price: real,
    positionAtBroker: int,
    priceAtBroker: real)

  datatype Strategy = Strategy(
    name: string,
    ticker: string,
    dailyInfo: seq<DailyInfo>,
    tradeInfo: seq<TradeInfo>)

  datatype Account = Account(
    code: string,
    balance: real,
    equity: real,
    strategies: map<string, Strategy>)

  /* Where a strategy lives: the code of its account and its own name. */
  datatype StrategyKey = StrategyKey(account: string, strategy: string)

  datatype AccountSet = AccountSet(
    accounts: map<string, Account>,
    currAccount: Option<string>,
    currStrategy: Option<StrategyKey>)
  {
    /* The strategy stored under `k`, if any. */
    function Lookup(k: StrategyKey): Option<Strategy> {
      if k.account in accounts && k.strategy in accounts[k.account].strategies
      then Some(accounts[k.account].strategies[k.strategy])
      else None
    }

    /* The Go `CurrStrategy` pointer is non-nil. */
    predicate HasCurrent() {
      currStrategy.Some? && Lookup(currStrategy.value).Some?
    }

    function Current(): Strategy
      requires HasCurrent()
    {
      Lookup(currStrategy.value).value
    }

    /* Every account is stored under its own code, every strategy under its
    own name, and each cursor that is set names an existing entity. */
    predicate Valid() {
      && (forall c :: c in accounts ==> accounts[c].code == c)
      && (forall c, n :: c in accounts && n in accounts[c].strategies ==>
            accounts[c].strategies[n].name == n)
      && (currAccount.Some? ==> currAccount.value in accounts)
      && (currStrategy.Some? ==> Lookup(currStrategy.value).Some?)
    }
  }

  /* No account carries a balance or equity: nothing in the pipeline writes them. */
  predicate BalancesZero(s: AccountSet) {
    forall c :: c in s.accounts ==> s.accounts[c].balance == 0.0 && s.accounts[c].equity == 0.0
  }

  /* `NewAccountSet` of account.go. */
  function NewAccountSet(): (r: AccountSet)
    ensures r.accounts == map[]
    ensures r.currAccount.None? && r.currStrategy.None?
    ensures r.Valid() && BalancesZero(r)
  {
    AccountSet(map[], None, None)
  }

  /* `NewAccount` of account.go. */
  function NewAccount(): (r: Account)
    ensures r.strategies == map[]
    ensures r.balance == 0.0 && r.equity == 0.0
    ensures r.code == ""
  {
    Account("", 0.0, 0.0, map[])
  }

  /* `NewStrategy` of account.go; it also starts the trade list empty. */
  function NewStrategy(): (r: Strategy)
    ensures r.dailyInfo == [] && r.tradeInfo == []
    ensures r.name == "" && r.ticker == ""
  {
    Strategy("", "", [], [])
  }

  /* `NewDailyInfo` of account.go. */
  function NewDailyInfo(): (r: DailyInfo)
    ensures r.day == 0 && r.numTrades == 0
    ensures r.openProfit == 0.0 && r.closeProfit == 0.0 && r.trueRange == 0.0
    ensures r.equity == 0.0 && r.balance == 0.0
  {
    DailyInfo(0, 0.0, 0.0, 0, 0.0, 0.0, 0.0)
  }

  /* `NewTradeInfo`, which pkg/core/core.go:304 calls as `model.NewTradeInfo`; its
  declaration is not part of this model. */
  function NewTradeInfo(): (r: TradeInfo)
    ensures r.tradeType == "" && r.day == 0 && r.time == 0
    ensures r.position == 0 && r.positionAtBroker == 0
    ensures r.price == 0.0 && r.priceAtBroker == 0.0
  {
    TradeInfo("", 0, 0, 0, 0.0, 0, 0.0)
  }

  /* `b` is `a` grown: no account or strategy disappears, an account keeps
  its code, balance and equity, a strategy keeps its name and ticker, and its
  daily and trade lists only get longer at the end. */
  ghost predicate Extends(a: AccountSet, b: AccountSet) {
    && a.accounts.Keys <= b.accounts.Keys
    && (forall c :: c in a.accounts ==>
          && b.accounts[c].code == a.accounts[c].code
          && b.accounts[c].balance == a.accounts[c].balance
          && b.accounts[c].equity == a.accounts[c].equity)
    && (forall k :: a.Lookup(k).Some? ==>
          && b.Lookup(k).Some?
          && b.Lookup(k).value.name == a.Lookup(k).value.name
          && b.Lookup(k).value.ticker == a.Lookup(k).value.ticker
          && a.Lookup(k).value.dailyInfo <= b.Lookup(k).value.dailyInfo
          && a.Lookup(k).value.tradeInfo <= b.Lookup(k).value.tradeInfo)
  }

  lemma ExtendsTransitive(a: AccountSet, b: AccountSet, c: AccountSet)
    requires Extends(a, b) && Extends(b, c)
    ensures Extends(a, c)
  {
  }

  /* Replaces the current strategy by `st`, which keeps its name. Everything
  else, the cursors included, stays as it was. */
  function ReplaceCurrent(s: AccountSet, st: Strategy): (r: AccountSet)
    requires s.HasCurrent() && st.name == s.Current().name
    ensures r.currAccount == s.currAccount && r.currStrategy == s.currStrategy
    ensures r.Lookup(s.currStrategy.value) == Some(st)
    ensures forall k :: k != s.currStrategy.value ==> r.Lookup(k) == s.Lookup(k)
    ensures r.accounts.Keys == s.accounts.Keys
    ensures forall c :: c in s.accounts ==>
      r.accounts[c] == s.accounts[c].(strategies := r.accounts[c].strategies)
    ensures forall c :: c in s.accounts ==> r.accounts[c].strategies.Keys == s.accounts[c].strategies.Keys
  {
    var k := s.currStrategy.value;
    var acc := s.accounts[k.account];
    s.(accounts := s.accounts[k.account := acc.(strategies := acc.strategies[k.strategy := st])])
  }
}
