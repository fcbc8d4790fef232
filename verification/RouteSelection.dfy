/** Choosing the accounts a session talks to
    (integrations/common/route_selection.py), and the binding made of them
    (integrations/common/orichum_sessions.py).
 */
module RouteSelection {
  import opened Options
  import Arithmetic
  import Sorting

  type Text = string

  datatype Account = Account(id: Text, provider: Text, pool: Text, active: bool, prefix: Text, priority: int)

  datatype Route = Route(account: Text, provider: Text, family: Text, logicalModel: Text, upstreamModel: Text,
                         priority: int, pool: Text)

  // Everything a choice depends on besides the accounts.
  datatype Query = Query(
    family: Text, logicalModel: Text, modelFamily: Option<Text>,
    poolProviders: map<Text, set<Text>>, fallbackRoutes: map<Text, seq<Text>>,
    allowed: set<Text>, locked: Option<Text>, upstream: map<Text, Text>,
    available: Option<set<Text>>, unhealthy: set<Text>)

  // ------------------------------------------------------------------ eligibility

  // The configuration is complete for a pool, and the model is of the family.
  predicate Configured(q: Query, pool: Text) {
    && (q.modelFamily.Some? ==> q.modelFamily.value == q.family)
    && pool in q.poolProviders && q.family in q.fallbackRoutes
  }

  // The last position of a provider, as enumerating into a dictionary leaves it.
  function Rank(providers: seq<Text>, provider: Text): (r: int)
    ensures r >= 0 <==> provider in providers
    ensures -1 <= r < |providers| && (r >= 0 ==> providers[r] == provider)
  {
    if providers == [] then -1
    else
      var n := |providers| - 1;
      assert providers == providers[..n] + [providers[n]];
      if providers[n] == provider then n else Rank(providers[..n], provider)
  }

  function UpstreamModel(q: Query, a: Account): Text
    requires a.provider in q.upstream
  {
    a.prefix + "/" + q.upstream[a.provider]
  }

  predicate Eligible(q: Query, pool: Text, a: Account)
    requires Configured(q, pool)
  {
    && a.active && a.pool == pool
    && (q.locked.Some? ==> a.id == q.locked.value)
    && a.provider in q.allowed && a.provider in q.poolProviders[pool]
    && a.provider in q.fallbackRoutes[q.family] && a.provider in q.upstream
    && (q.available.Some? ==> UpstreamModel(q, a) in q.available.value)
  }

  function RouteOf(q: Query, a: Account): Route
    requires a.provider in q.upstream
  {
    Route(a.id, a.provider, q.family, q.logicalModel, UpstreamModel(q, a), a.priority, a.pool)
  }

  // Higher priority first, then the provider's rank, then the account.
  predicate Before(q: Query, a: Route, b: Route) {
    var ranks := if q.family in q.fallbackRoutes then q.fallbackRoutes[q.family] else [];
    var i, j := Rank(ranks, a.provider), Rank(ranks, b.provider);
    || a.priority > b.priority
    || (a.priority == b.priority && i < j)
    || (a.priority == b.priority && i == j && Sorting.LexLess(Sorting.Codes(a.account), Sorting.Codes(b.account)))
  }

  function Order(q: Query): (Route, Route) -> bool {
    (a, b) => Before(q, a, b)
  }

  function RouteFor(q: Query, pool: Text): Account -> Option<Route>
    requires Configured(q, pool)
  {
    a => if Eligible(q, pool, a) then Some(RouteOf(q, a)) else None
  }

  function RoutesOf(q: Query, pool: Text, accounts: seq<Account>): seq<Route>
    requires Configured(q, pool)
  {
    Sorting.Collect(RouteFor(q, pool), accounts)
  }

  function EligibleRoutes(q: Query, pool: Text, accounts: seq<Account>): Option<seq<Route>> {
    if Configured(q, pool) then Some(Sorting.Sort(Order(q), RoutesOf(q, pool, accounts))) else None
  }

  method FindEligible(q: Query, pool: Text, accounts: seq<Account>) returns (r: Option<seq<Route>>)
    ensures r == EligibleRoutes(q, pool, accounts)
  {
    if !Configured(q, pool) {
      return None;
    }
    var routes: seq<Route> := [];
    for i := 0 to |accounts|
      invariant routes == RoutesOf(q, pool, accounts[..i])
    {
      assert accounts[..i + 1][..i] == accounts[..i];
      if Eligible(q, pool, accounts[i]) {
        routes := routes + [RouteOf(q, accounts[i])];
      }
    }
    assert accounts[..|accounts|] == accounts;
    r := Some(Sorting.Sort(Order(q), routes));
  }

  // ---------------------------------------------------------------------- the order

  lemma OrderIsStrict(q: Query)
    ensures Sorting.StrictOrder(Order(q))
  {
    forall a
      ensures !Order(q)(a, a)
    {
      Sorting.LexIrreflexive(Sorting.Codes(a.account));
    }
    forall a, b, c | Order(q)(a, b) && Order(q)(b, c)
      ensures Order(q)(a, c)
    {
      BeforeIsTransitive(q, a, b, c);
    }
  }

  lemma BeforeIsTransitive(q: Query, a: Route, b: Route, c: Route)
    requires Before(q, a, b) && Before(q, b, c)
    ensures Before(q, a, c)
  {
    var x, y, z := Sorting.Codes(a.account), Sorting.Codes(b.account), Sorting.Codes(c.account);
    if Sorting.LexLess(x, y) && Sorting.LexLess(y, z) {
      Sorting.LexTransitive(x, y, z);
    }
  }

  lemma BeforeIsTotal(q: Query, a: Route, b: Route)
    requires a.account != b.account
    ensures Before(q, a, b) || Before(q, b, a)
  {
    var x, y := Sorting.Codes(a.account), Sorting.Codes(b.account);
    Sorting.LexTotal(x, y);
    if x == y {
      Sorting.CodesTell(a.account, b.account);
    }
  }

  // --------------------------------------------------------------- unique accounts

  // What the account registry guarantees of its accounts.
  ghost predicate Unique(accounts: seq<Account>) {
    && (forall i, j :: 0 <= i < j < |accounts| ==> accounts[i].id != accounts[j].id)
    && (forall i, j :: 0 <= i < j < |accounts| ==> accounts[i].prefix != accounts[j].prefix)
    && (forall i, j :: 0 <= i < j < |accounts| ==> |accounts[i].prefix| == |accounts[j].prefix|)
  }

  lemma UniqueAccount(accounts: seq<Account>, a: Account, b: Account)
    requires Unique(accounts) && a in accounts && b in accounts
    ensures a.id == b.id || a.prefix == b.prefix ==> a == b
    ensures |a.prefix| == |b.prefix|
  {
    var i :| 0 <= i < |accounts| && accounts[i] == a;
    var j :| 0 <= j < |accounts| && accounts[j] == b;
  }

  lemma RouteIsOfAccount(q: Query, pool: Text, accounts: seq<Account>, r: Route)
    requires Configured(q, pool)
    ensures r in RoutesOf(q, pool, accounts) <==>
      exists a :: a in accounts && Eligible(q, pool, a) && RouteOf(q, a) == r
  {
    Sorting.CollectHolds(RouteFor(q, pool), accounts, r);
    assert forall a :: Eligible(q, pool, a) ==> RouteFor(q, pool)(a) == Some(RouteOf(q, a));
    assert forall a :: !Eligible(q, pool, a) ==> RouteFor(q, pool)(a).None?;
  }

  lemma RoutesAreUntied(q: Query, pool: Text, accounts: seq<Account>)
    requires Configured(q, pool) && Unique(accounts)
    ensures Sorting.TotalOn(Order(q), RoutesOf(q, pool, accounts))
  {
    var routes := RoutesOf(q, pool, accounts);
    forall r, s | r in routes && s in routes && r != s
      ensures Order(q)(r, s) || Order(q)(s, r)
    {
      RouteIsOfAccount(q, pool, accounts, r);
      RouteIsOfAccount(q, pool, accounts, s);
      var a :| a in accounts && Eligible(q, pool, a) && RouteOf(q, a) == r;
      var b :| b in accounts && Eligible(q, pool, b) && RouteOf(q, b) == s;
      UniqueAccount(accounts, a, b);
      BeforeIsTotal(q, r, s);
    }
  }

  /** The routes of a pool do not depend on the order of the accounts. */
  lemma EligibleForgetsOrder(q: Query, pool: Text, s: seq<Account>, t: seq<Account>)
    requires Unique(s) && multiset(s) == multiset(t)
    ensures EligibleRoutes(q, pool, s) == EligibleRoutes(q, pool, t)
  {
    if Configured(q, pool) {
      Sorting.CollectPermuted(RouteFor(q, pool), s, t);
      RoutesAreUntied(q, pool, s);
      OrderIsStrict(q);
      Sorting.SortForgetsOrder(Order(q), RoutesOf(q, pool, s), RoutesOf(q, pool, t));
    }
  }

  // What the routes of a pool are, written out: the account is active, of this pool and
  // the locked one if any; its provider is allowed, authorised and ranked, and serves
  // the model; and its upstream name is available.
  ghost predicate Serves(q: Query, pool: Text, a: Account, r: Route) {
    && a.active && a.pool == pool && (q.locked == None || q.locked == Some(a.id))
    && a.provider in q.allowed
    && pool in q.poolProviders && a.provider in q.poolProviders[pool]
    && q.family in q.fallbackRoutes && a.provider in q.fallbackRoutes[q.family]
    && a.provider in q.upstream
    && (q.available == None || r.upstreamModel in q.available.value)
    && r.account == a.id && r.provider == a.provider && r.priority == a.priority && r.pool == pool
    && r.family == q.family && r.logicalModel == q.logicalModel
    && r.upstreamModel == a.prefix + "/" + q.upstream[a.provider]
  }

  ghost predicate IsServed(q: Query, pool: Text, accounts: seq<Account>, r: Route) {
    exists a :: a in accounts && Serves(q, pool, a, r)
  }

  /** The routes of a pool are those, each of its account alone; there are none to be
      found exactly if the configuration is incomplete or the model of another family.
   */
  lemma EligibleMeans(q: Query, pool: Text, accounts: seq<Account>)
    ensures EligibleRoutes(q, pool, accounts).Some? <==>
      && (q.modelFamily == None || q.modelFamily == Some(q.family))
      && pool in q.poolProviders && q.family in q.fallbackRoutes
    ensures EligibleRoutes(q, pool, accounts).Some? ==>
      forall r :: r in EligibleRoutes(q, pool, accounts).value <==> IsServed(q, pool, accounts, r)
  {
    if Configured(q, pool) {
      Sorting.SameElements(EligibleRoutes(q, pool, accounts).value, RoutesOf(q, pool, accounts));
      forall r
        ensures r in RoutesOf(q, pool, accounts) <==> IsServed(q, pool, accounts, r)
      {
        RouteIsOfAccount(q, pool, accounts, r);
        if a :| a in accounts && Eligible(q, pool, a) && RouteOf(q, a) == r {
          assert Serves(q, pool, a, r);
        }
        if a :| a in accounts && Serves(q, pool, a, r) {
          assert Eligible(q, pool, a) && RouteOf(q, a) == r;
        }
      }
    }
  }

  // The last place of a provider in a list that has it.
  ghost predicate LastAt(providers: seq<Text>, provider: Text, i: int) {
    0 <= i < |providers| && providers[i] == provider && forall k :: i < k < |providers| ==> providers[k] != provider
  }

  lemma {:induction false} RankIsLast(providers: seq<Text>, provider: Text)
    requires provider in providers
    ensures LastAt(providers, provider, Rank(providers, provider))
  {
    var n := |providers| - 1;
    assert providers == providers[..n] + [providers[n]];
    if providers[n] != provider {
      RankIsLast(providers[..n], provider);
      forall k | Rank(providers, provider) < k < n
        ensures providers[k] != provider
      {
        assert providers[..n][k] == providers[k];
      }
    }
  }

  // A route stands before another: by priority, by the place of its provider, by the
  // characters of its account.
  ghost predicate StandsBefore(q: Query, r: Route, s: Route)
    requires q.family in q.fallbackRoutes
  {
    var providers := q.fallbackRoutes[q.family];
    || r.priority > s.priority
    || (r.priority == s.priority &&
        exists i, j :: LastAt(providers, r.provider, i) && LastAt(providers, s.provider, j) &&
          (i < j || (i == j &&
            exists n :: Sorting.ComesFirst(Sorting.Codes(r.account), Sorting.Codes(s.account), n))))
  }

  lemma BeforeMeans(q: Query, r: Route, s: Route)
    requires q.family in q.fallbackRoutes
    requires r.provider in q.fallbackRoutes[q.family] && s.provider in q.fallbackRoutes[q.family]
    ensures Before(q, r, s) <==> StandsBefore(q, r, s)
  {
    var providers := q.fallbackRoutes[q.family];
    RankIsLast(providers, r.provider);
    RankIsLast(providers, s.provider);
    Sorting.LexMeans(Sorting.Codes(r.account), Sorting.Codes(s.account));
  }

  /** And they stand in that order: never is a lower priority, or a later provider at
      equal priority, ahead of a better route. */
  lemma EligibleIsRanked(q: Query, pool: Text, accounts: seq<Account>, i: nat, j: nat)
    requires Unique(accounts) && EligibleRoutes(q, pool, accounts).Some?
    requires i < j < |EligibleRoutes(q, pool, accounts).value|
    ensures q.family in q.fallbackRoutes
    ensures var routes := EligibleRoutes(q, pool, accounts).value;
            StandsBefore(q, routes[i], routes[j]) && routes[i] != routes[j]
  {
    var routes := EligibleRoutes(q, pool, accounts).value;
    OrderIsStrict(q);
    RoutesAreUntied(q, pool, accounts);
    Sorting.SortSorts(Order(q), RoutesOf(q, pool, accounts));
    RoutesHaveNoRepeats(q, pool, accounts);
    Sorting.NoRepeatsByIndex(routes, i, j);
    Sorting.SameElements(routes, RoutesOf(q, pool, accounts));
    assert routes[i] in routes && routes[j] in routes;
    EligibleMeans(q, pool, accounts);
    BeforeMeans(q, routes[i], routes[j]);
  }

  // ----------------------------------------------------------------- the primary

  function Healthy(q: Query, routes: seq<Route>): (r: seq<Route>)
    ensures forall x :: x in r <==> x in routes && x.account !in q.unhealthy
  {
    if routes == [] then []
    else
      assert routes == [routes[0]] + routes[1..];
      (if routes[0].account in q.unhealthy then [] else [routes[0]]) + Healthy(q, routes[1..])
  }

  function Highest(routes: seq<Route>): (p: int)
    requires routes != []
    ensures forall r :: r in routes ==> r.priority <= p
    ensures exists r :: r in routes && r.priority == p
  {
    if |routes| == 1 then routes[0].priority
    else
      assert routes == [routes[0]] + routes[1..];
      var rest := Highest(routes[1..]);
      if routes[0].priority >= rest then routes[0].priority else rest
  }

  function Tier(routes: seq<Route>, priority: int): (r: seq<Route>)
    ensures forall x :: x in r <==> x in routes && x.priority == priority
  {
    if routes == [] then []
    else
      assert routes == [routes[0]] + routes[1..];
      (if routes[0].priority == priority then [routes[0]] else []) + Tier(routes[1..], priority)
  }

  // The healthy routes of highest priority in a pool.
  function TopTier(q: Query, routes: seq<Route>): (r: seq<Route>)
    ensures r == [] <==> Healthy(q, routes) == []
  {
    var healthy := Healthy(q, routes);
    if healthy == [] then []
    else
      var tier := Tier(healthy, Highest(healthy));
      assert exists x :: x in tier;
      tier
  }

  function Choose(q: Query, pools: seq<Text>, accounts: seq<Account>, ordinal: int): Option<Route> {
    if ordinal < 0 || pools == [] then None
    else
      var routes := EligibleRoutes(q, pools[0], accounts);
      if routes.None? then None
      else
        var tier := TopTier(q, routes.value);
        if tier == [] then Choose(q, pools[1..], accounts, ordinal) else Some(tier[ordinal % |tier|])
  }

  method ChooseNewSessionRoute(q: Query, pools: seq<Text>, accounts: seq<Account>, ordinal: int)
    returns (r: Option<Route>)
    ensures r == Choose(q, pools, accounts, ordinal)
  {
    if ordinal < 0 {
      return None;
    }
    for i := 0 to |pools|
      invariant Choose(q, pools, accounts, ordinal) == Choose(q, pools[i..], accounts, ordinal)
    {
      assert pools[i..][1..] == pools[i + 1..];
      var routes := FindEligible(q, pools[i], accounts);
      if routes.None? {
        return None;
      }
      var healthy := Healthy(q, routes.value);
      if healthy != [] {
        var tier := Tier(healthy, Highest(healthy));
        assert tier == TopTier(q, routes.value);
        return Some(tier[ordinal % |tier|]);
      }
    }
    r := None;
  }

  ghost predicate HasHealthy(q: Query, pool: Text, accounts: seq<Account>) {
    EligibleRoutes(q, pool, accounts).Some? && Healthy(q, EligibleRoutes(q, pool, accounts).value) != []
  }

  ghost predicate HasNone(q: Query, pool: Text, accounts: seq<Account>) {
    EligibleRoutes(q, pool, accounts).Some? && Healthy(q, EligibleRoutes(q, pool, accounts).value) == []
  }

  // The first pool with a healthy route, every pool before it being configured.
  ghost predicate FirstHealthy(q: Query, pools: seq<Text>, accounts: seq<Account>, i: nat) {
    i < |pools| && HasHealthy(q, pools[i], accounts) && forall k :: 0 <= k < i ==> HasNone(q, pools[k], accounts)
  }

  // A healthy route of the pool that no healthy route of the pool outranks.
  ghost predicate TopOf(q: Query, pool: Text, accounts: seq<Account>, r: Route)
    requires HasHealthy(q, pool, accounts)
  {
    var healthy := Healthy(q, EligibleRoutes(q, pool, accounts).value);
    r in healthy && forall s :: s in healthy ==> s.priority <= r.priority
  }

  lemma TierIsTop(q: Query, pool: Text, accounts: seq<Account>, k: nat)
    requires HasHealthy(q, pool, accounts)
    ensures var tier := TopTier(q, EligibleRoutes(q, pool, accounts).value);
            tier != [] && TopOf(q, pool, accounts, tier[k % |tier|])
  {
    var tier := TopTier(q, EligibleRoutes(q, pool, accounts).value);
    assert tier[k % |tier|] in tier;
  }

  lemma FirstHealthyLater(q: Query, pools: seq<Text>, accounts: seq<Account>, j: nat)
    requires pools != [] && HasNone(q, pools[0], accounts) && FirstHealthy(q, pools[1..], accounts, j)
    ensures FirstHealthy(q, pools, accounts, j + 1)
  {
    forall k | 0 <= k < j + 1
      ensures HasNone(q, pools[k], accounts)
    {
      assert k > 0 ==> pools[k] == pools[1..][k - 1];
    }
  }

  // The pool a primary comes from.
  lemma {:induction false} ChosenPool(q: Query, pools: seq<Text>, accounts: seq<Account>, ordinal: nat) returns (i: nat)
    requires Choose(q, pools, accounts, ordinal).Some?
    ensures FirstHealthy(q, pools, accounts, i)
  {
    if HasHealthy(q, pools[0], accounts) {
      i := 0;
    } else {
      var j := ChosenPool(q, pools[1..], accounts, ordinal);
      FirstHealthyLater(q, pools, accounts, j);
      i := j + 1;
    }
  }

  lemma ChooseFirst(q: Query, pools: seq<Text>, accounts: seq<Account>, ordinal: nat)
    requires pools != [] && HasHealthy(q, pools[0], accounts)
    ensures var tier := TopTier(q, EligibleRoutes(q, pools[0], accounts).value);
            tier != [] && Choose(q, pools, accounts, ordinal) == Some(tier[ordinal % |tier|])
  {
  }

  lemma ChooseLater(q: Query, pools: seq<Text>, accounts: seq<Account>, ordinal: nat)
    requires pools != [] && HasNone(q, pools[0], accounts)
    ensures Choose(q, pools, accounts, ordinal) == Choose(q, pools[1..], accounts, ordinal)
  {
  }

  /** The primary comes from the first pool that has a healthy route, and is a
      healthy route of highest priority there. */
  lemma {:induction false} PrimaryIsTop(q: Query, pools: seq<Text>, accounts: seq<Account>, i: nat, ordinal: nat)
    requires FirstHealthy(q, pools, accounts, i)
    ensures var tier := TopTier(q, EligibleRoutes(q, pools[i], accounts).value);
            tier != [] && Choose(q, pools, accounts, ordinal) == Some(tier[ordinal % |tier|])
    ensures TopOf(q, pools[i], accounts, Choose(q, pools, accounts, ordinal).value)
  {
    if i > 0 {
      assert HasNone(q, pools[0], accounts);
      FirstHealthySooner(q, pools, accounts, i);
      PrimaryIsTop(q, pools[1..], accounts, i - 1, ordinal);
      ChooseLater(q, pools, accounts, ordinal);
    } else {
      ChooseFirst(q, pools, accounts, ordinal);
      TierIsTop(q, pools[0], accounts, ordinal);
    }
  }

  lemma FirstHealthySooner(q: Query, pools: seq<Text>, accounts: seq<Account>, i: nat)
    requires FirstHealthy(q, pools, accounts, i) && i > 0
    ensures FirstHealthy(q, pools[1..], accounts, i - 1)
  {
    forall k | 0 <= k < i - 1
      ensures HasNone(q, pools[1..][k], accounts)
    {
      assert pools[1..][k] == pools[k + 1];
    }
  }

  // ---------------------------------------------------------- consecutive ordinals

  lemma {:induction false} RoutesHaveNoRepeats(q: Query, pool: Text, accounts: seq<Account>)
    requires Configured(q, pool) && Unique(accounts)
    ensures Sorting.NoRepeats(RoutesOf(q, pool, accounts))
  {
    if accounts != [] {
      var n := |accounts| - 1;
      var front, last := accounts[..n], accounts[n];
      RoutesHaveNoRepeats(q, pool, front);
      var routes := RoutesOf(q, pool, front);
      if Eligible(q, pool, last) {
        var r := RouteOf(q, last);
        RouteIsOfAccount(q, pool, front, r);
        forall a | a in front
          ensures a.id != last.id
        {
        }
        assert r !in routes;
        assert multiset(routes + [r]) == multiset(routes) + multiset{r};
      }
    }
  }

  lemma {:induction false} HealthyRepeatsNothing(q: Query, routes: seq<Route>)
    ensures multiset(Healthy(q, routes)) <= multiset(routes)
  {
    if routes != [] {
      assert routes == [routes[0]] + routes[1..];
      HealthyRepeatsNothing(q, routes[1..]);
    }
  }

  lemma {:induction false} TierRepeatsNothing(routes: seq<Route>, priority: int)
    ensures multiset(Tier(routes, priority)) <= multiset(routes)
  {
    if routes != [] {
      assert routes == [routes[0]] + routes[1..];
      TierRepeatsNothing(routes[1..], priority);
    }
  }

  function TierIn(q: Query, pool: Text, accounts: seq<Account>): seq<Route>
    requires HasHealthy(q, pool, accounts)
  {
    TopTier(q, EligibleRoutes(q, pool, accounts).value)
  }

  lemma TierHasNoRepeats(q: Query, pool: Text, accounts: seq<Account>)
    requires HasHealthy(q, pool, accounts) && Unique(accounts)
    ensures Sorting.NoRepeats(TierIn(q, pool, accounts))
  {
    var routes := EligibleRoutes(q, pool, accounts).value;
    var healthy := Healthy(q, routes);
    RoutesHaveNoRepeats(q, pool, accounts);
    HealthyRepeatsNothing(q, routes);
    TierRepeatsNothing(healthy, Highest(healthy));
  }

  lemma TurnInTier(tier: seq<Route>, start: nat, r: Route) returns (turn: nat)
    requires Sorting.NoRepeats(tier) && r in tier
    ensures start <= turn < start + |tier| && tier[turn % |tier|] == r
    ensures forall k: nat :: start <= k < start + |tier| && k != turn ==> tier[k % |tier|] != r
  {
    var n := |tier|;
    var x :| 0 <= x < n && tier[x] == r;
    var first := start % n;
    turn := start + if x >= first then x - first else x - first + n;
    Arithmetic.ModOfShift(start, turn - start, n);
    forall k: nat | start <= k < start + n && k != turn
      ensures tier[k % n] != r
    {
      Arithmetic.ModOfShift(start, k - start, n);
      var y := k % n;
      Sorting.NoRepeatsByIndex(tier, if x < y then x else y, if x < y then y else x);
    }
  }

  /** Any n consecutive ordinals choose each of the n routes of the tier once. */
  lemma OrdinalsTakeTurns(q: Query, pools: seq<Text>, accounts: seq<Account>, i: nat, start: nat, r: Route)
    returns (turn: nat)
    requires FirstHealthy(q, pools, accounts, i) && Unique(accounts) && r in TierIn(q, pools[i], accounts)
    ensures var n := |TierIn(q, pools[i], accounts)|;
            && start <= turn < start + n && Choose(q, pools, accounts, turn) == Some(r)
            && forall k: nat :: start <= k < start + n && k != turn ==> Choose(q, pools, accounts, k) != Some(r)
  {
    var tier := TierIn(q, pools[i], accounts);
    TierHasNoRepeats(q, pools[i], accounts);
    turn := TurnInTier(tier, start, r);
    PrimaryIsTop(q, pools, accounts, i, turn);
    forall k: nat | start <= k < start + |tier| && k != turn
      ensures Choose(q, pools, accounts, k) != Some(r)
    {
      PrimaryIsTop(q, pools, accounts, i, k);
    }
  }

  // --------------------------------------------------------------------- the chain

  // The eligible routes of all pools, pool by pool.
  function AllRoutes(q: Query, pools: seq<Text>, accounts: seq<Account>): Option<seq<Route>> {
    if pools == [] then Some([])
    else
      var n := |pools| - 1;
      var front, last := AllRoutes(q, pools[..n], accounts), EligibleRoutes(q, pools[n], accounts);
      if front.None? || last.None? then None else Some(front.value + last.value)
  }

  predicate IsOther(q: Query, r: Route, account: Text) {
    r.account != account && r.account !in q.unhealthy
  }

  // The first healthy route of another account.
  function FirstOther(q: Query, routes: seq<Route>, account: Text): (r: Option<Route>)
    ensures r.Some? ==> r.value in routes && IsOther(q, r.value, account)
    ensures r.None? ==> forall x :: x in routes ==> !IsOther(q, x, account)
  {
    if routes == [] then None
    else
      var n := |routes| - 1;
      assert routes == routes[..n] + [routes[n]];
      var sooner := FirstOther(q, routes[..n], account);
      if sooner.Some? then sooner
      else if IsOther(q, routes[n], account) then Some(routes[n]) else None
  }

  function Link(q: Query, primary: Option<Route>, routes: Option<seq<Route>>, alternates: int): Option<seq<Route>> {
    if alternates < 0 || alternates > 1 || primary.None? || routes.None? then None
    else
      var other := FirstOther(q, routes.value, primary.value.account);
      Some([primary.value] + if alternates == 1 && other.Some? then [other.value] else [])
  }

  function Chain(q: Query, pools: seq<Text>, accounts: seq<Account>, ordinal: int,
    alternates: int): Option<seq<Route>> {
    Link(q, Choose(q, pools, accounts, ordinal), AllRoutes(q, pools, accounts), alternates)
  }

  // The alternates found so far, one for each account.
  ghost predicate Found(q: Query, routes: seq<Route>, account: Text, candidates: seq<Route>, seen: set<Text>) {
    && account in seen && (candidates == [] ==> seen == {account})
    && FirstOther(q, routes, account) == (if candidates == [] then None else Some(candidates[0]))
    && (forall i :: 0 <= i < |candidates| ==> candidates[i].account in seen)
    && OnePerAccount(candidates)
  }

  ghost predicate OnePerAccount(routes: seq<Route>) {
    forall i, j :: 0 <= i < j < |routes| ==> routes[i].account != routes[j].account
  }

  lemma FoundNext(q: Query, routes: seq<Route>, r: Route, account: Text, candidates: seq<Route>, seen: set<Text>)
    requires Found(q, routes, account, candidates, seen)
    ensures r.account !in seen && r.account !in q.unhealthy ==>
      Found(q, routes + [r], account, candidates + [r], seen + {r.account})
    ensures r.account in seen || r.account in q.unhealthy ==> Found(q, routes + [r], account, candidates, seen)
  {
    assert (routes + [r])[..|routes|] == routes;
  }

  method AddCandidates(q: Query, ghost done: seq<Route>, routes: seq<Route>, account: Text,
                       candidates: seq<Route>, seen: set<Text>)
    returns (more: seq<Route>, all: set<Text>)
    requires Found(q, done, account, candidates, seen)
    ensures Found(q, done + routes, account, more, all)
  {
    more, all := candidates, seen;
    assert done + routes[..0] == done;
    for i := 0 to |routes|
      invariant Found(q, done + routes[..i], account, more, all)
    {
      FoundNext(q, done + routes[..i], routes[i], account, more, all);
      assert done + routes[..i] + [routes[i]] == done + routes[..i + 1];
      if routes[i].account !in all && routes[i].account !in q.unhealthy {
        more := more + [routes[i]];
        all := all + {routes[i].account};
      }
    }
    assert routes[..|routes|] == routes;
  }

  lemma {:induction false} IncompletePools(q: Query, pools: seq<Text>, accounts: seq<Account>, i: nat)
    requires i < |pools| && EligibleRoutes(q, pools[i], accounts).None?
    ensures AllRoutes(q, pools, accounts).None?
  {
    var n := |pools| - 1;
    if i < n {
      assert pools[..n][i] == pools[i];
      IncompletePools(q, pools[..n], accounts, i);
    }
  }

  method Candidates(q: Query, pools: seq<Text>, accounts: seq<Account>, account: Text)
    returns (candidates: Option<seq<Route>>)
    ensures candidates.None? <==> AllRoutes(q, pools, accounts).None?
    ensures candidates.Some? ==>
      FirstOther(q, AllRoutes(q, pools, accounts).value, account)
      == if candidates.value == [] then None else Some(candidates.value[0])
    ensures candidates.Some? ==> OnePerAccount(candidates.value)
  {
    var found: seq<Route>, seen := [], {account};
    ghost var done: seq<Route> := [];
    for i := 0 to |pools|
      invariant AllRoutes(q, pools[..i], accounts) == Some(done)
      invariant Found(q, done, account, found, seen)
    {
      var routes := FindEligible(q, pools[i], accounts);
      if routes.None? {
        IncompletePools(q, pools, accounts, i);
        return None;
      }
      assert pools[..i + 1][..i] == pools[..i];
      found, seen := AddCandidates(q, done, routes.value, account, found, seen);
      done := done + routes.value;
    }
    assert pools[..|pools|] == pools;
    candidates := Some(found);
  }

  method RouteChain(q: Query, pools: seq<Text>, accounts: seq<Account>, ordinal: int, alternates: int)
    returns (chain: Option<seq<Route>>)
    ensures chain == Chain(q, pools, accounts, ordinal, alternates)
  {
    if alternates < 0 || alternates > 1 {
      return None;
    }
    var primary := ChooseNewSessionRoute(q, pools, accounts, ordinal);
    if primary.None? {
      return None;
    }
    var candidates := Candidates(q, pools, accounts, primary.value.account);
    if candidates.None? {
      return None;
    }
    chain := Some([primary.value] + FirstFew(candidates.value, alternates));
  }

  function FirstFew(routes: seq<Route>, n: nat): (r: seq<Route>)
    ensures n == 0 ==> r == []
    ensures n == 1 ==> r == if routes == [] then [] else [routes[0]]
  {
    if |routes| < n then routes else routes[..n]
  }

  // ------------------------------------------------------- order of the accounts

  lemma {:induction false} ChooseForgetsOrder(q: Query, pools: seq<Text>, s: seq<Account>, t: seq<Account>,
    ordinal: int)
    requires Unique(s) && multiset(s) == multiset(t)
    ensures Choose(q, pools, s, ordinal) == Choose(q, pools, t, ordinal)
  {
    if pools != [] {
      EligibleForgetsOrder(q, pools[0], s, t);
      ChooseForgetsOrder(q, pools[1..], s, t, ordinal);
    }
  }

  lemma {:induction false} AllForgetsOrder(q: Query, pools: seq<Text>, s: seq<Account>, t: seq<Account>)
    requires Unique(s) && multiset(s) == multiset(t)
    ensures AllRoutes(q, pools, s) == AllRoutes(q, pools, t)
  {
    if pools != [] {
      EligibleForgetsOrder(q, pools[|pools| - 1], s, t);
      AllForgetsOrder(q, pools[..|pools| - 1], s, t);
    }
  }

  /** A chain does not depend on the order in which the accounts are listed. */
  lemma ChainForgetsOrder(q: Query, pools: seq<Text>, s: seq<Account>, t: seq<Account>, ordinal: int, alternates: int)
    requires Unique(s) && multiset(s) == multiset(t)
    ensures Chain(q, pools, s, ordinal, alternates) == Chain(q, pools, t, ordinal, alternates)
  {
    ChooseForgetsOrder(q, pools, s, t, ordinal);
    AllForgetsOrder(q, pools, s, t);
  }

  // ------------------------------------------------------------ what a chain is made of

  // A healthy route that one of the pools has.
  ghost predicate ServedHealthily(q: Query, pools: seq<Text>, accounts: seq<Account>, r: Route) {
    r.account !in q.unhealthy && InSomePool(q, pools, accounts, r)
  }

  // One of the pools has the route.
  ghost predicate InSomePool(q: Query, pools: seq<Text>, accounts: seq<Account>, r: Route) {
    exists i :: 0 <= i < |pools| && IsServed(q, pools[i], accounts, r)
  }

  lemma InMorePools(q: Query, front: seq<Text>, pool: Text, pools: seq<Text>, accounts: seq<Account>, r: Route)
    requires pools == front + [pool]
    ensures InSomePool(q, pools, accounts, r) <==>
      InSomePool(q, front, accounts, r) || IsServed(q, pool, accounts, r)
  {
    if i :| 0 <= i < |front| && IsServed(q, front[i], accounts, r) {
      assert IsServed(q, pools[i], accounts, r);
    }
    if IsServed(q, pool, accounts, r) {
      assert IsServed(q, pools[|front|], accounts, r);
    }
    if i :| 0 <= i < |pools| && IsServed(q, pools[i], accounts, r) {
      assert i < |front| ==> IsServed(q, front[i], accounts, r);
    }
  }

  lemma {:induction false} AllAreServed(q: Query, pools: seq<Text>, accounts: seq<Account>, r: Route)
    requires AllRoutes(q, pools, accounts).Some?
    ensures r in AllRoutes(q, pools, accounts).value <==> InSomePool(q, pools, accounts, r)
  {
    if pools != [] {
      var n := |pools| - 1;
      AllAreServed(q, pools[..n], accounts, r);
      EligibleMeans(q, pools[n], accounts);
      InMorePools(q, pools[..n], pools[n], pools, accounts, r);
    }
  }

  /** Nothing is chosen exactly if the ordinal is negative or no pool is the first with
      a healthy route, every pool before it being configured and without one. */
  lemma {:induction false} ChoosesWhen(q: Query, pools: seq<Text>, accounts: seq<Account>, ordinal: int)
    ensures Choose(q, pools, accounts, ordinal).Some? <==>
      ordinal >= 0 && exists i: nat :: FirstHealthy(q, pools, accounts, i)
  {
    if ordinal >= 0 {
      if Choose(q, pools, accounts, ordinal).Some? {
        var i := ChosenPool(q, pools, accounts, ordinal);
      }
      if i: nat :| FirstHealthy(q, pools, accounts, i) {
        PrimaryIsTop(q, pools, accounts, i, ordinal);
      }
    }
  }

  /** Every route of a chain is a healthy one that a pool has, and the alternate is the
      first of another account: pool by pool, in the order of each. */
  lemma ChainMeans(q: Query, pools: seq<Text>, accounts: seq<Account>, ordinal: int, alternates: int)
    requires Chain(q, pools, accounts, ordinal, alternates).Some?
    ensures var c := Chain(q, pools, accounts, ordinal, alternates).value;
            && (forall r :: r in c ==> ServedHealthily(q, pools, accounts, r))
            && |c| == (if alternates == 1 && HasOther(q, pools, accounts, c[0].account) then 2 else 1)
            && (|c| == 2 ==> c[1].account != c[0].account && FirstOfOthers(q, pools, accounts, c[0].account, c[1]))
  {
    var c := Chain(q, pools, accounts, ordinal, alternates).value;
    var routes := AllRoutes(q, pools, accounts).value;
    ChosenIsServed(q, pools, accounts, ordinal);
    var other := FirstOther(q, routes, c[0].account);
    OthersAreServed(q, pools, accounts, c[0].account);
    if other.Some? {
      AllAreServed(q, pools, accounts, other.value);
      var k := OtherIsFirst(q, routes, c[0].account);
    }
  }

  lemma ChosenIsServed(q: Query, pools: seq<Text>, accounts: seq<Account>, ordinal: int)
    requires Choose(q, pools, accounts, ordinal).Some?
    ensures ServedHealthily(q, pools, accounts, Choose(q, pools, accounts, ordinal).value)
  {
    var i := ChosenPool(q, pools, accounts, ordinal);
    PrimaryIsTop(q, pools, accounts, i, ordinal);
    EligibleMeans(q, pools[i], accounts);
  }

  lemma OthersAreServed(q: Query, pools: seq<Text>, accounts: seq<Account>, account: Text)
    requires AllRoutes(q, pools, accounts).Some?
    ensures FirstOther(q, AllRoutes(q, pools, accounts).value, account).Some? <==>
      HasOther(q, pools, accounts, account)
  {
    var routes := AllRoutes(q, pools, accounts).value;
    if r :| r in routes && IsOther(q, r, account) {
      AllAreServed(q, pools, accounts, r);
      assert ServedHealthily(q, pools, accounts, r);
    }
    if r :| ServedHealthily(q, pools, accounts, r) && r.account != account {
      AllAreServed(q, pools, accounts, r);
      assert IsOther(q, r, account);
    }
  }

  // Some healthy route is of another account.
  ghost predicate HasOther(q: Query, pools: seq<Text>, accounts: seq<Account>, account: Text) {
    exists r :: ServedHealthily(q, pools, accounts, r) && r.account != account
  }

  ghost predicate FirstOfOthers(q: Query, pools: seq<Text>, accounts: seq<Account>, account: Text, r: Route) {
    && AllRoutes(q, pools, accounts).Some?
    && var routes := AllRoutes(q, pools, accounts).value;
       exists k :: FirstOtherAt(q, routes, account, r, k)
  }

  ghost predicate FirstOtherAt(q: Query, routes: seq<Route>, account: Text, r: Route, k: nat) {
    && k < |routes| && routes[k] == r
    && forall j :: 0 <= j < k ==> routes[j].account == account || routes[j].account in q.unhealthy
  }

  lemma {:induction false} OtherIsFirst(q: Query, routes: seq<Route>, account: Text) returns (k: nat)
    requires FirstOther(q, routes, account).Some?
    ensures FirstOtherAt(q, routes, account, FirstOther(q, routes, account).value, k)
  {
    var n := |routes| - 1;
    var front := routes[..n];
    if FirstOther(q, front, account).Some? {
      k := OtherIsFirst(q, front, account);
      assert forall j :: 0 <= j <= k ==> routes[j] == front[j];
    } else {
      k := n;
      forall j | 0 <= j < n
        ensures routes[j].account == account || routes[j].account in q.unhealthy
      {
        assert front[j] in front;
      }
    }
  }

  // ---------------------------------------------------------------------- bindings

  datatype Binding = Binding(primary: Route, fallbacks: seq<Route>)

  // What a stored binding has to satisfy to be read again.
  ghost predicate Parses(b: Binding) {
    && |b.fallbacks| <= 1
    && forall i :: 0 <= i < |b.fallbacks| ==>
         && b.fallbacks[i].family == b.primary.family && b.fallbacks[i].logicalModel == b.primary.logicalModel
         && b.fallbacks[i].account != b.primary.account && b.fallbacks[i].upstreamModel != b.primary.upstreamModel
  }

  ghost predicate FromAccount(q: Query, accounts: seq<Account>, r: Route) {
    exists a :: a in accounts && a.provider in q.upstream && RouteOf(q, a) == r
  }

  lemma EligibleIsFromAccount(q: Query, pool: Text, accounts: seq<Account>, r: Route)
    requires EligibleRoutes(q, pool, accounts).Some? && r in EligibleRoutes(q, pool, accounts).value
    ensures FromAccount(q, accounts, r)
  {
    Sorting.SameElements(EligibleRoutes(q, pool, accounts).value, RoutesOf(q, pool, accounts));
    RouteIsOfAccount(q, pool, accounts, r);
  }

  lemma {:induction false} AllAreFromAccounts(q: Query, pools: seq<Text>, accounts: seq<Account>, r: Route)
    requires AllRoutes(q, pools, accounts).Some? && r in AllRoutes(q, pools, accounts).value
    ensures FromAccount(q, accounts, r)
  {
    var n := |pools| - 1;
    if r in EligibleRoutes(q, pools[n], accounts).value {
      EligibleIsFromAccount(q, pools[n], accounts, r);
    } else {
      AllAreFromAccounts(q, pools[..n], accounts, r);
    }
  }

  lemma {:induction false} ChosenIsFromAccount(q: Query, pools: seq<Text>, accounts: seq<Account>, ordinal: int)
    requires Choose(q, pools, accounts, ordinal).Some?
    ensures FromAccount(q, accounts, Choose(q, pools, accounts, ordinal).value)
  {
    var i := ChosenPool(q, pools, accounts, ordinal);
    PrimaryIsTop(q, pools, accounts, i, ordinal);
    EligibleIsFromAccount(q, pools[i], accounts, Choose(q, pools, accounts, ordinal).value);
  }

  // Two accounts never share a route's account, and never its upstream model.
  lemma AccountsDoNotMeet(q: Query, accounts: seq<Account>, r: Route, s: Route)
    requires Unique(accounts) && FromAccount(q, accounts, r) && FromAccount(q, accounts, s)
    ensures r.account == s.account || r.upstreamModel == s.upstreamModel ==> r == s
    ensures r.family == s.family && r.logicalModel == s.logicalModel
  {
    var a :| a in accounts && a.provider in q.upstream && RouteOf(q, a) == r;
    var b :| b in accounts && b.provider in q.upstream && RouteOf(q, b) == s;
    UniqueAccount(accounts, a, b);
    if r.upstreamModel == s.upstreamModel {
      PrefixTells(a.prefix, q.upstream[a.provider], b.prefix, q.upstream[b.provider]);
    }
  }

  lemma PrefixTells(a: Text, x: Text, b: Text, y: Text)
    requires |a| == |b| && a + "/" + x == b + "/" + y
    ensures a == b
  {
    assert a == (a + "/" + x)[..|a|];
    assert b == (b + "/" + y)[..|b|];
  }

  // The first route of a chain that is not the given one.
  function Besides(chain: seq<Route>, r: Route): (rest: seq<Route>)
    ensures |rest| <= 1 && forall x :: x in rest ==> x in chain && x != r
  {
    if chain == [] then [] else if chain[0] != r then [chain[0]] else Besides(chain[1..], r)
  }

  // The healthy routes of every pool.
  function HealthyRoutes(q: Query, pools: seq<Text>, accounts: seq<Account>): seq<Route>
    requires AllRoutes(q, pools, accounts).Some?
  {
    Healthy(q, AllRoutes(q, pools, accounts).value)
  }

  /** Binds a candidate model to its accounts; a session that resumes keeps its
      primary as long as that is still a healthy route. */
  method BindCandidate(q: Query, pools: seq<Text>, accounts: seq<Account>, ordinal: int, preferred: Option<Route>)
    returns (b: Option<Binding>)
    requires Unique(accounts)
    ensures b.Some? <==> Chain(q, pools, accounts, ordinal, 1).Some?
    ensures b.Some? ==> Parses(b.value)
    ensures b.Some? && preferred.Some? && preferred.value in HealthyRoutes(q, pools, accounts) ==>
      b.value.primary == preferred.value
      && b.value.fallbacks == Besides(Chain(q, pools, accounts, ordinal, 1).value, preferred.value)
    ensures b.Some? && (preferred.None? || preferred.value !in HealthyRoutes(q, pools, accounts)) ==>
      [b.value.primary] + b.value.fallbacks == Chain(q, pools, accounts, ordinal, 1).value
  {
    var chain := RouteChain(q, pools, accounts, ordinal, 1);
    if chain.None? {
      return None;
    }
    ChainIsSound(q, pools, accounts, ordinal);
    if preferred.Some? {
      var eligible := Gather(q, pools, accounts);
      if preferred.value in eligible {
        var fallbacks := Besides(chain.value, preferred.value);
        ResumedParses(q, pools, accounts, chain.value, preferred.value, fallbacks);
        return Some(Binding(preferred.value, fallbacks));
      }
    }
    b := Some(Binding(chain.value[0], chain.value[1..]));
  }

  method Gather(q: Query, pools: seq<Text>, accounts: seq<Account>) returns (eligible: set<Route>)
    requires AllRoutes(q, pools, accounts).Some?
    ensures forall r :: r in eligible <==> r in HealthyRoutes(q, pools, accounts)
  {
    eligible := {};
    for i := 0 to |pools|
      invariant AllRoutes(q, pools[..i], accounts).Some?
      invariant forall r :: r in eligible <==> r in HealthyRoutes(q, pools[..i], accounts)
    {
      var routes := FindEligible(q, pools[i], accounts);
      if routes.None? {
        IncompletePools(q, pools, accounts, i);
        assert false;
      }
      assert pools[..i + 1][..i] == pools[..i];
      var healthy := Healthy(q, routes.value);
      eligible := eligible + set r | r in healthy;
    }
    assert pools[..|pools|] == pools;
  }

  /** Every chain makes a binding that can be read back: one fallback at most, of
      another account, under another name, for the same model. */
  lemma ChainIsSound(q: Query, pools: seq<Text>, accounts: seq<Account>, ordinal: int)
    requires Unique(accounts) && Chain(q, pools, accounts, ordinal, 1).Some?
    ensures var c := Chain(q, pools, accounts, ordinal, 1).value;
            && 1 <= |c| <= 2 && Parses(Binding(c[0], c[1..]))
            && forall r :: r in c ==> FromAccount(q, accounts, r)
  {
    var c := Chain(q, pools, accounts, ordinal, 1).value;
    ChosenIsFromAccount(q, pools, accounts, ordinal);
    if |c| == 2 {
      AllAreFromAccounts(q, pools, accounts, c[1]);
      AccountsDoNotMeet(q, accounts, c[0], c[1]);
    }
  }

  lemma ResumedParses(q: Query, pools: seq<Text>, accounts: seq<Account>, chain: seq<Route>, r: Route, rest: seq<Route>)
    requires Unique(accounts) && (forall x :: x in chain ==> FromAccount(q, accounts, x))
    requires AllRoutes(q, pools, accounts).Some? && r in HealthyRoutes(q, pools, accounts)
    requires rest == Besides(chain, r)
    ensures Parses(Binding(r, rest))
  {
    AllAreFromAccounts(q, pools, accounts, r);
    if rest != [] {
      assert rest[0] in rest;
      AccountsDoNotMeet(q, accounts, r, rest[0]);
    }
  }
}
