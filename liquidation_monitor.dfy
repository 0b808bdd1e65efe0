/**
 * The liquidation scanner: a set of borrowers filled from Borrow events,
 * and a scan that asks the lending pool for each borrower's account data
 * and reports those whose health factor is below 1.0.
 *
 * The pool's `getUserAccountData` call is an oracle `query` that answers
 * with the account data or fails; the event subscription and the decoding
 * of the borrower address from the log topics are left to the caller of
 * `OnBorrowEvent`. The JavaScript Set is a sequence without duplicates, in
 * insertion order, which is the order in which a Set is iterated.
 */
module Liquidations {
  import opened Wrappers

  type Address = string

  /** `parseEther("1.0")`: a health factor of 1.0 in 18-decimal fixed point. */
  const HealthFactorThreshold: nat := 1000000000000000000
  /** `parseEther("1.0")`: the debt amount `getUserAssets` reports. */
  const DefaultDebtAmount: nat := 1000000000000000000

  /** The token addresses of the configuration; either may be undefined on a given chain. */
  datatype TokenConfig = TokenConfig(weth: Option<Address>, usdc: Option<Address>)

  /** The six fields `getUserAccountData` returns. */
  datatype AccountData = AccountData(
    totalCollateralBase: nat, totalDebtBase: nat, availableBorrowsBase: nat,
    currentLiquidationThreshold: nat, ltv: nat, healthFactor: nat)

  /** The outcome of one `getUserAccountData` call. */
  datatype QueryResult = Answered(data: AccountData) | QueryFailed

  datatype UserAssets = UserAssets(debtAsset: Option<Address>, collateralAsset: Option<Address>, debtAmount: nat)

  datatype LiquidationOpportunity = LiquidationOpportunity(
    user: Address, healthFactor: nat,
    debtAsset: Option<Address>, collateralAsset: Option<Address>, debtAmount: nat)

  /**
   * `getUserAssets`: the same placeholder answer for every user, WETH debt
   * against USDC collateral and 1 ether of debt; when the configuration has
   * no token section the property access throws, and the caught error is
   * answered with nothing.
   */
  function GetUserAssets(tokens: Option<TokenConfig>, user: Address): (r: Option<UserAssets>)
    ensures r.Some? <==> tokens.Some?
    ensures r.Some? ==> r.value == UserAssets(tokens.value.weth, tokens.value.usdc, DefaultDebtAmount)
  {
    match tokens
    case None => None
    case Some(t) => Some(UserAssets(t.weth, t.usdc, DefaultDebtAmount))
  }

  /** True when the user's account data came back with a health factor strictly below 1.0. */
  predicate IsLiquidatable(query: Address -> QueryResult, user: Address) {
    query(user).Answered? && query(user).data.healthFactor < HealthFactorThreshold
  }

  /**
   * What every entry of a scan carries: a user with a health factor below
   * 1.0, that user's own health factor, WETH as the debt asset, USDC as the
   * collateral asset and 1 ether of debt.
   */
  predicate IsReported(o: LiquidationOpportunity, query: Address -> QueryResult, tokens: Option<TokenConfig>) {
    && IsLiquidatable(query, o.user)
    && o.healthFactor == query(o.user).data.healthFactor
    && tokens.Some? && o.debtAsset == tokens.value.weth && o.collateralAsset == tokens.value.usdc
    && o.debtAmount == DefaultDebtAmount
  }

  /** The entries one user contributes to a scan: none, or one. */
  function ScanUser(user: Address, query: Address -> QueryResult, tokens: Option<TokenConfig>): (r: seq<LiquidationOpportunity>)
    ensures |r| <= 1
    ensures |r| == 1 <==> IsLiquidatable(query, user) && tokens.Some?
    ensures |r| == 1 ==> r[0].user == user && IsReported(r[0], query, tokens)
  {
    if IsLiquidatable(query, user) then
      var assets := GetUserAssets(tokens, user);
      if assets.Some? then
        [LiquidationOpportunity(user, query(user).data.healthFactor,
                                assets.value.debtAsset, assets.value.collateralAsset, assets.value.debtAmount)]
      else []
    else []
  }

  /** What `scanForOpportunities` returns for the given users, in their order: never more entries than users. */
  function Scan(users: seq<Address>, query: Address -> QueryResult, tokens: Option<TokenConfig>): (r: seq<LiquidationOpportunity>)
    ensures |r| <= |users|
  {
    if users == [] then []
    else Scan(users[..|users| - 1], query, tokens) + ScanUser(users[|users| - 1], query, tokens)
  }

  predicate NoDuplicates(s: seq<Address>) {
    forall i, j :: 0 <= i < j < |s| ==> s[i] != s[j]
  }

  /** The scan of a concatenation is the concatenation of the scans: each user is examined on its own. */
  lemma {:induction false} ScanAppend(a: seq<Address>, b: seq<Address>, query: Address -> QueryResult, tokens: Option<TokenConfig>)
    ensures Scan(a + b, query, tokens) == Scan(a, query, tokens) + Scan(b, query, tokens)
  {
    if b == [] {
      assert a + b == a;
    } else {
      var b' := b[..|b| - 1];
      assert (a + b)[..|a + b| - 1] == a + b';
      ScanAppend(a, b', query, tokens);
    }
  }

  /**
   * A user whose query fails contributes nothing, and the users after it
   * are still examined: the scan around it is the scan without it.
   */
  lemma {:induction false} FailureIsContained(before: seq<Address>, user: Address, after: seq<Address>,
                                              query: Address -> QueryResult, tokens: Option<TokenConfig>)
    requires query(user) == QueryFailed
    ensures Scan(before + [user] + after, query, tokens) == Scan(before, query, tokens) + Scan(after, query, tokens)
  {
    var withUser := before + [user];
    ScanOfFailedUser(user, query, tokens);
    ScanAppend(before, [user], query, tokens);
    assert Scan(withUser, query, tokens) == Scan(before, query, tokens);
    ScanAppend(withUser, after, query, tokens);
  }

  lemma ScanOfFailedUser(user: Address, query: Address -> QueryResult, tokens: Option<TokenConfig>)
    requires query(user) == QueryFailed
    ensures Scan([user], query, tokens) == []
  {
    assert [user][..0] == [];
  }

  /** Every entry is one of the tracked users, reported as `IsReported` describes. */
  lemma {:induction false} ScanEntries(users: seq<Address>, query: Address -> QueryResult, tokens: Option<TokenConfig>)
    ensures forall k :: 0 <= k < |Scan(users, query, tokens)| ==>
              Scan(users, query, tokens)[k].user in users && IsReported(Scan(users, query, tokens)[k], query, tokens)
  {
    if users != [] {
      var init, last := users[..|users| - 1], users[|users| - 1];
      ScanEntries(init, query, tokens);
      var s0, s := Scan(init, query, tokens), Scan(users, query, tokens);
      var tail := ScanUser(last, query, tokens);
      assert s == s0 + tail;
      forall k | 0 <= k < |s|
        ensures s[k].user in users && IsReported(s[k], query, tokens)
      {
        if k < |s0| {
          assert s[k] == s0[k];
          assert s0[k].user in init;
        } else {
          assert s[k] == tail[k - |s0|];
        }
      }
    }
  }

  /** A user appears in the scan exactly when it is tracked and its health factor is strictly below 1.0. */
  lemma {:induction false} ScanMembership(users: seq<Address>, query: Address -> QueryResult, tokens: Option<TokenConfig>, user: Address)
    ensures (exists k :: 0 <= k < |Scan(users, query, tokens)| && Scan(users, query, tokens)[k].user == user)
            <==> user in users && IsLiquidatable(query, user) && tokens.Some?
  {
    ScanEntries(users, query, tokens);
    if users != [] {
      var init, last := users[..|users| - 1], users[|users| - 1];
      ScanMembership(init, query, tokens, user);
      assert users == init + [last];
      var s0 := Scan(init, query, tokens);
      var s := Scan(users, query, tokens);
      if user in users && IsLiquidatable(query, user) && tokens.Some? {
        if user == last {
          assert ScanUser(last, query, tokens) == [LiquidationOpportunity(
            user, query(user).data.healthFactor, tokens.value.weth, tokens.value.usdc, DefaultDebtAmount)];
          assert s[|s| - 1].user == user;
          assert exists k :: 0 <= k < |Scan(users, query, tokens)| && Scan(users, query, tokens)[k].user == user;
        } else {
          var k :| 0 <= k < |s0| && s0[k].user == user;
          assert s[k] == s0[k];
        }
      }
    }
  }

  /**
   * The entries follow the users' order: they are the users at strictly
   * increasing positions.
   */
  lemma {:induction false} ScanFollowsOrder(users: seq<Address>, query: Address -> QueryResult, tokens: Option<TokenConfig>)
    returns (positions: seq<nat>)
    ensures var s := Scan(users, query, tokens);
            && |positions| == |s|
            && (forall k :: 0 <= k < |s| ==> positions[k] < |users| && s[k].user == users[positions[k]])
            && (forall k, l :: 0 <= k < l < |s| ==> positions[k] < positions[l])
  {
    if users == [] {
      positions := [];
    } else {
      var init := users[..|users| - 1];
      var p0 := ScanFollowsOrder(init, query, tokens);
      if IsLiquidatable(query, users[|users| - 1]) && tokens.Some? {
        positions := p0 + [|users| - 1];
      } else {
        positions := p0;
      }
    }
  }

  /** When the tracked users are distinct, so are the users of the entries: at most one entry per user. */
  lemma ScanDistinctUsers(users: seq<Address>, query: Address -> QueryResult, tokens: Option<TokenConfig>)
    requires NoDuplicates(users)
    ensures var s := Scan(users, query, tokens);
            forall k, l :: 0 <= k < l < |s| ==> s[k].user != s[l].user
  {
    var positions := ScanFollowsOrder(users, query, tokens);
  }

  /** The threshold is strict: a health factor of exactly 1.0 is not reported, one unit less is. */
  lemma ThresholdIsStrict(user: Address, data: AccountData, tokens: TokenConfig)
    ensures data.healthFactor == HealthFactorThreshold ==>
              Scan([user], _ => Answered(data), Some(tokens)) == []
    ensures data.healthFactor == HealthFactorThreshold - 1 ==>
              Scan([user], _ => Answered(data), Some(tokens))
              == [LiquidationOpportunity(user, HealthFactorThreshold - 1, tokens.weth, tokens.usdc, DefaultDebtAmount)]
  {
    assert [user][..0] == [];
  }

  class LiquidationMonitor {
    /** The borrowers seen so far, in insertion order. */
    var users: seq<Address>
    /** `config.tokens`, which a configuration may lack. */
    const tokens: Option<TokenConfig>

    ghost predicate Valid()
      reads this
    {
      NoDuplicates(users)
    }

    constructor (tokens: Option<TokenConfig>)
      ensures Valid() && users == [] && this.tokens == tokens
    {
      users := [];
      this.tokens := tokens;
    }

    /**
     * The Borrow-event listener: add the decoded borrower to the set. Adding
     * a borrower already present changes nothing; nothing is ever removed.
     */
    method OnBorrowEvent(user: Address)
      requires Valid()
      modifies this
      ensures Valid()
      ensures users == if user in old(users) then old(users) else old(users) + [user]
      ensures user in users && forall u :: u in old(users) ==> u in users
    {
      if user !in users {
        users := users + [user];
      }
    }

    /**
     * `scanForOpportunities`: query every tracked user in order, keep those
     * whose health factor is below 1.0 together with their assets, and skip
     * any user whose query fails. The set of users is not changed.
     */
    method ScanForOpportunities(query: Address -> QueryResult) returns (opportunities: seq<LiquidationOpportunity>)
      ensures opportunities == Scan(users, query, tokens)
    {
      opportunities := [];
      var i := 0;
      while i < |users|
        invariant 0 <= i <= |users|
        invariant opportunities == Scan(users[..i], query, tokens)
      {
        var user := users[i];
        var accountData := query(user);
        if accountData.Answered? {
          if accountData.data.healthFactor < HealthFactorThreshold {
            var assets := GetUserAssets(tokens, user);
            if assets.Some? {
              opportunities := opportunities + [LiquidationOpportunity(
                user, accountData.data.healthFactor,
                assets.value.debtAsset, assets.value.collateralAsset, assets.value.debtAmount)];
            }
          }
        }
        assert users[..i + 1][..i] == users[..i];
        i := i + 1;
      }
      assert users[..i] == users;
    }
  }
}
