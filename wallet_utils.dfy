/** Wallet valuation (src/lib/walletUtils.ts): token balances read per ERC-20
    contract, the Chainlink ETH/USD price, the USD total, and a Firestore cache
    of the result that is fresh for five minutes. Chain and store reads are
    inputs: None or false stands for a call that threw. */
module WalletUtils {

  import opened Types
  import opened Seqs

  /** `5 * 60 * 1000` milliseconds. */
  const CACHE_EXPIRY: int := 300000

  datatype TokenInfo = TokenInfo(symbol: string, address: string, decimals: nat)

  /** A token line; `balance` is the amount `parseFloat` reads back from the
      formatted string. */
  datatype TokenBalance = TokenBalance(symbol: string, balance: real, balanceUsd: real)

  datatype WalletBalance = WalletBalance(totalBalanceUsd: real, tokens: seq<TokenBalance>, lastUpdated: int)

  const WETH_ADDRESS := "0xC02aaA39b223FE8D0A0e5C4F27eAD9083C756Cc2"

  /** The tokens read; the first entry is labelled 'ETH' but is the WETH
      contract, listed again as 'WETH'. */
  const ETH_TOKENS: seq<TokenInfo> := [
    TokenInfo("ETH", WETH_ADDRESS, 18),
    TokenInfo("WETH", WETH_ADDRESS, 18),
    TokenInfo("STETH", "0xae7ab96520DE3A18E5e111B5EaAb095312D7fE84", 18),
    TokenInfo("WBETH", "0xa2E3356610840701BDf5611a53974510Ae27E2e1", 18),
    TokenInfo("METH", "0xd5F7838F5C461fefF7FE49ea5ebaF7728bB0ADfa", 18),
    TokenInfo("CBETH", "0xBe9895146f7AF43049ca1c1AE358B0541Ea49704", 18),
    TokenInfo("rsETH", "0xA1290d69c65A6Fe4DF752f95823fae25cB99e5A7", 18),
    TokenInfo("pufETH", "0xD9A442856C234a39a81a089C06451EBAa4306a72", 18)
  ]

  /** A cached balance is used while strictly less than `CACHE_EXPIRY` has
      passed since it was written. */
  predicate IsFresh(cached: WalletBalance, now: int)
    ensures IsFresh(cached, now) <==> now < cached.lastUpdated + 300000
  {
    now - cached.lastUpdated < CACHE_EXPIRY
  }

  lemma FreshnessBoundary(cached: WalletBalance)
    ensures IsFresh(cached, cached.lastUpdated)
    ensures IsFresh(cached, cached.lastUpdated + CACHE_EXPIRY - 1)
    ensures !IsFresh(cached, cached.lastUpdated + CACHE_EXPIRY)
  {
  }

  /** The per-token result of `Promise.all(tokens.map(...))`: a failed read
      becomes balance 0. */
  function ReadBalance(result: Option<real>): real {
    match result
    case Some(b) => b
    case None => 0.0
  }

  function Fetched(tokens: seq<TokenInfo>, results: seq<Option<real>>): (r: seq<TokenBalance>)
    requires |results| == |tokens|
    ensures |r| == |tokens|
    ensures forall i :: 0 <= i < |tokens| ==> r[i] == TokenBalance(tokens[i].symbol, ReadBalance(results[i]), 0.0)
    decreases |tokens|
  {
    if |tokens| == 0 then []
    else
      Fetched(tokens[..|tokens| - 1], results[..|results| - 1])
      + [TokenBalance(tokens[|tokens| - 1].symbol, ReadBalance(results[|results| - 1]), 0.0)]
  }

  /** `filter(token => parseFloat(token.balance) > 0)` */
  function PositiveOnly(ts: seq<TokenBalance>): (r: seq<TokenBalance>)
    ensures |r| <= |ts|
    decreases |ts|
  {
    if |ts| == 0 then []
    else
      var init := PositiveOnly(ts[..|ts| - 1]);
      var last := ts[|ts| - 1];
      if last.balance > 0.0 then init + [last] else init
  }

  /** The filter keeps order and keeps exactly the positive balances. */
  lemma {:induction false} PositiveOnlyIsFilter(ts: seq<TokenBalance>)
    ensures IsSubsequence(PositiveOnly(ts), ts)
    ensures forall t :: t in PositiveOnly(ts) ==> t in ts && t.balance > 0.0
    ensures forall t :: t in ts ==> (t in PositiveOnly(ts) <==> t.balance > 0.0)
    decreases |ts|
  {
    if |ts| > 0 {
      var init := ts[..|ts| - 1];
      var last := ts[|ts| - 1];
      PositiveOnlyIsFilter(init);
      var r := PositiveOnly(ts);
      assert ts == init + [last];
      if last.balance > 0.0 {
        assert r == PositiveOnly(init) + [last];
        assert r[..|r| - 1] == PositiveOnly(init);
      } else {
        assert r == PositiveOnly(init);
      }
    }
  }

  /** A list that is already positive passes the filter unchanged. */
  lemma {:induction false} PositiveOnlyOfPositive(ts: seq<TokenBalance>)
    requires forall i :: 0 <= i < |ts| ==> ts[i].balance > 0.0
    ensures PositiveOnly(ts) == ts
    decreases |ts|
  {
    if |ts| > 0 {
      PositiveOnlyOfPositive(ts[..|ts| - 1]);
    }
  }

  /** `fetchTokenBalances` */
  function FetchTokenBalances(tokens: seq<TokenInfo>, results: seq<Option<real>>): (r: seq<TokenBalance>)
    requires |results| == |tokens|
    ensures |r| <= |tokens|
  {
    PositiveOnly(Fetched(tokens, results))
  }

  /** Its lines are exactly the reads with a positive amount, in token order,
      each with a zero USD value. */
  lemma FetchTokenBalancesMeaning(tokens: seq<TokenInfo>, results: seq<Option<real>>)
    requires |results| == |tokens|
    ensures IsSubsequence(FetchTokenBalances(tokens, results), Fetched(tokens, results))
    ensures forall t :: t in FetchTokenBalances(tokens, results) ==> t.balance > 0.0 && t.balanceUsd == 0.0
    ensures forall i :: 0 <= i < |tokens| && ReadBalance(results[i]) > 0.0 ==>
              TokenBalance(tokens[i].symbol, ReadBalance(results[i]), 0.0) in FetchTokenBalances(tokens, results)
  {
    var f := Fetched(tokens, results);
    PositiveOnlyIsFilter(f);
    forall i | 0 <= i < |tokens| && ReadBalance(results[i]) > 0.0
      ensures TokenBalance(tokens[i].symbol, ReadBalance(results[i]), 0.0) in FetchTokenBalances(tokens, results)
    {
      assert f[i] in f;
    }
  }

  /** `Number(formatUnits(answer, 8))`: the feed's answer in units of 1e-8. */
  function GetEthPrice(answer: int): (price: real)
    ensures price * 100000000.0 == answer as real
  {
    answer as real / 100000000.0
  }

  /** `{ ...token, balanceUsd: parseFloat(token.balance) * ethPrice }` */
  function PriceLine(t: TokenBalance, price: real): (r: TokenBalance)
    ensures r.symbol == t.symbol && r.balance == t.balance
  {
    TokenBalance(t.symbol, t.balance, t.balance * price)
  }

  /** The same over the list. */
  function Priced(ts: seq<TokenBalance>, price: real): (r: seq<TokenBalance>)
    ensures |r| == |ts|
    ensures forall i :: 0 <= i < |ts| ==> r[i] == PriceLine(ts[i], price)
    decreases |ts|
  {
    if |ts| == 0 then []
    else Priced(ts[..|ts| - 1], price) + [PriceLine(ts[|ts| - 1], price)]
  }

  function SumBalances(ts: seq<TokenBalance>): real
    decreases |ts|
  {
    if |ts| == 0 then 0.0 else SumBalances(ts[..|ts| - 1]) + ts[|ts| - 1].balance
  }

  function SumUsd(ts: seq<TokenBalance>): real
    decreases |ts|
  {
    if |ts| == 0 then 0.0 else SumUsd(ts[..|ts| - 1]) + ts[|ts| - 1].balanceUsd
  }

  /** Each line's balance times the price, added up: the sum the `map`
      accumulates, written independently of the priced lines. */
  function SumPriced(ts: seq<TokenBalance>, price: real): real
    decreases |ts|
  {
    if |ts| == 0 then 0.0 else SumPriced(ts[..|ts| - 1], price) + ts[|ts| - 1].balance * price
  }

  /** Adding the USD values of the priced lines is adding balance times price. */
  lemma {:induction false} SumUsdPriced(ts: seq<TokenBalance>, price: real)
    ensures SumUsd(Priced(ts, price)) == SumPriced(ts, price)
    decreases |ts|
  {
    if |ts| > 0 {
      var init := ts[..|ts| - 1];
      SumUsdPriced(init, price);
      assert Priced(ts, price)[..|ts| - 1] == Priced(init, price);
    }
  }

  /** Pricing each line and adding is pricing the sum. */
  lemma {:induction false} SumPricedFactor(ts: seq<TokenBalance>, price: real)
    ensures SumPriced(ts, price) == price * SumBalances(ts)
    decreases |ts|
  {
    if |ts| > 0 {
      SumPricedFactor(ts[..|ts| - 1], price);
      Distribute(price, SumBalances(ts[..|ts| - 1]), ts[|ts| - 1].balance);
    }
  }

  /** What the successful reads contribute: every positive result, zero for
      the rest. */
  function ResultSum(results: seq<Option<real>>): (s: real)
    ensures s >= 0.0
    decreases |results|
  {
    if |results| == 0 then 0.0
    else
      var b := ReadBalance(results[|results| - 1]);
      ResultSum(results[..|results| - 1]) + (if b > 0.0 then b else 0.0)
  }

  /** The token list's balances add up to the positive results. */
  lemma {:induction false} FetchedSum(tokens: seq<TokenInfo>, results: seq<Option<real>>)
    requires |results| == |tokens|
    ensures SumBalances(FetchTokenBalances(tokens, results)) == ResultSum(results)
    decreases |tokens|
  {
    if |tokens| > 0 {
      var n := |tokens| - 1;
      FetchedSum(tokens[..n], results[..n]);
      assert Fetched(tokens, results)[..n] == Fetched(tokens[..n], results[..n]);
      var init := PositiveOnly(Fetched(tokens[..n], results[..n]));
      if ReadBalance(results[n]) > 0.0 {
        assert (init + [Fetched(tokens, results)[n]])[..|init|] == init;
      }
    }
  }

  /** Adding results never lowers the sum. */
  lemma {:induction false} ResultSumPrefix(results: seq<Option<real>>, k: nat)
    requires k <= |results|
    ensures ResultSum(results[..k]) <= ResultSum(results)
    decreases |results| - k
  {
    if k < |results| {
      ResultSumPrefix(results, k + 1);
      assert results[..k + 1][..k] == results[..k];
    } else {
      assert results[..k] == results;
    }
  }

  /** Entries that share a contract both contribute: when the first two
      reads (the WETH contract, as 'ETH' and as 'WETH') return the same
      positive amount, it is counted twice. */
  lemma SharedContractCountsTwice(results: seq<Option<real>>, w: real)
    requires |results| == |ETH_TOKENS| && w > 0.0
    requires results[0] == Some(w) && results[1] == Some(w)
    ensures ETH_TOKENS[0].address == ETH_TOKENS[1].address
    ensures SumBalances(FetchTokenBalances(ETH_TOKENS, results)) >= 2.0 * w
  {
    FetchedSum(ETH_TOKENS, results);
    ResultSumPrefix(results, 2);
    assert results[..2][..1] == results[..1];
    assert results[..1][..0] == [];
  }

  /** A result that does not depend on any read: the catch branch. */
  function Degraded(now: int): (wb: WalletBalance)
    ensures wb.totalBalanceUsd == 0.0 && wb.tokens == [] && wb.lastUpdated == now
  {
    WalletBalance(0.0, [], now)
  }

  /** The line `unshift`ed for the native balance. */
  function EthEntry(eth: real, price: real): TokenBalance {
    TokenBalance("ETH", eth, eth * price)
  }

  /** What a successful refresh returns and stores, from the native balance
      and the fetched token lines: the priced token lines after the native ETH
      line, without zero balances, and the token lines' USD values plus the
      native line's as the total. */
  function Aggregate(eth: real, tb: seq<TokenBalance>, price: real, now: int): (wb: WalletBalance)
    ensures wb.lastUpdated == now
  {
    var priced := Priced(tb, price);
    WalletBalance(SumUsd(priced) + eth * price, PositiveOnly([EthEntry(eth, price)] + priced), now)
  }

  lemma Distribute(a: real, b: real, c: real)
    ensures a * (b + c) == a * b + a * c
  {
  }

  /** Priced lines of a positive list stay positive. */
  lemma PricedPositive(ts: seq<TokenBalance>, price: real)
    requires forall t :: t in ts ==> t.balance > 0.0
    ensures forall i :: 0 <= i < |Priced(ts, price)| ==> Priced(ts, price)[i].balance > 0.0
  {
    forall i | 0 <= i < |ts|
      ensures Priced(ts, price)[i].balance > 0.0
    {
      assert ts[i] in ts;
    }
  }

  /** Pricing each line and adding the native line's value is pricing the
      native balance plus the lines' balances. */
  lemma PricedTotal(eth: real, ts: seq<TokenBalance>, price: real)
    ensures SumUsd(Priced(ts, price)) + eth * price == price * (eth + SumBalances(ts))
  {
    SumUsdPriced(ts, price);
    SumPricedFactor(ts, price);
    Distribute(price, eth, SumBalances(ts));
  }

  /** The stored total is the price times the native balance plus the token
      lines' balances; over the fetched lines that is every positive token
      result. */
  lemma AggregateTotal(eth: real, tb: seq<TokenBalance>, price: real, now: int)
    ensures Aggregate(eth, tb, price, now).totalBalanceUsd == price * (eth + SumBalances(tb))
  {
    PricedTotal(eth, tb, price);
  }

  /** With positive token lines, the ETH line comes first exactly when the
      native balance is positive, followed by every token line, priced, in
      list order. */
  lemma AggregateLines(eth: real, tb: seq<TokenBalance>, price: real, now: int)
    requires forall t :: t in tb ==> t.balance > 0.0
    ensures var wb := Aggregate(eth, tb, price, now);
            (eth > 0.0 ==> wb.tokens == [EthEntry(eth, price)] + Priced(tb, price))
            && (eth <= 0.0 ==> wb.tokens == Priced(tb, price))
  {
    var lines := Priced(tb, price);
    PricedPositive(tb, price);
    var all := [EthEntry(eth, price)] + lines;
    if eth > 0.0 {
      PositiveOnlyOfPositive(all);
    } else {
      PositiveOnlyOfPositive(lines);
      PositiveDropsFirst(all);
      assert all[1..] == lines;
    }
  }

  /** A non-positive first line is the only one the filter drops from an
      otherwise positive list. */
  lemma {:induction false} PositiveDropsFirst(ts: seq<TokenBalance>)
    requires |ts| > 0 && ts[0].balance <= 0.0
    ensures PositiveOnly(ts) == PositiveOnly(ts[1..])
    decreases |ts|
  {
    if |ts| > 1 {
      var init := ts[..|ts| - 1];
      PositiveDropsFirst(init);
      assert init[1..] == ts[1..][..|ts[1..]| - 1];
    } else {
      assert ts[1..] == [];
    }
  }

  /** The `map` over the token lines that prices each one and adds its USD
      value to the running `totalBalanceUsd`. */
  method PriceTokens(tokenBalances: seq<TokenBalance>, ethPrice: real)
      returns (totalBalanceUsd: real, updatedBalances: seq<TokenBalance>)
    ensures updatedBalances == Priced(tokenBalances, ethPrice)
    ensures totalBalanceUsd == SumUsd(updatedBalances)
    ensures totalBalanceUsd == SumPriced(tokenBalances, ethPrice)
    ensures totalBalanceUsd == ethPrice * SumBalances(tokenBalances)
  {
    totalBalanceUsd := 0.0;
    updatedBalances := [];
    var i := 0;
    while i < |tokenBalances|
      invariant 0 <= i <= |tokenBalances|
      invariant updatedBalances == Priced(tokenBalances[..i], ethPrice)
      invariant totalBalanceUsd == SumUsd(updatedBalances)
    {
      var line := PriceLine(tokenBalances[i], ethPrice);
      totalBalanceUsd := totalBalanceUsd + line.balanceUsd;
      assert tokenBalances[..i + 1][..i] == tokenBalances[..i];
      assert (updatedBalances + [line])[..i] == updatedBalances;
      updatedBalances := updatedBalances + [line];
      i := i + 1;
    }
    assert tokenBalances[..i] == tokenBalances;
    SumUsdPriced(tokenBalances, ethPrice);
    SumPricedFactor(tokenBalances, ethPrice);
  }

  /** What the chain and store calls return for one refresh. */
  datatype Reads = Reads(
    cacheReadOk: bool,                  // getDoc on the cache did not throw
    ethBalance: Option<real>,           // provider.getBalance
    tokenResults: seq<Option<real>>,    // one balanceOf per ETH_TOKENS entry
    priceAnswer: Option<int>,           // latestRoundData().answer
    cacheWriteOk: bool)                 // setDoc on the cache did not throw

  /** The `walletBalances` collection, keyed by address. */
  class WalletCache {
    var entries: map<string, WalletBalance>

    constructor ()
      ensures entries == map[]
    {
      entries := map[];
    }

    /** `getCachedBalance`: the stored balance while it is fresh. */
    method GetCachedBalance(address: string, now: int) returns (cached: Option<WalletBalance>)
      ensures cached.Some? <==> address in entries && IsFresh(entries[address], now)
      ensures cached.Some? ==> cached.value == entries[address]
    {
      if address in entries && IsFresh(entries[address], now) {
        cached := Some(entries[address]);
      } else {
        cached := None;
      }
    }

    /** `fetchWalletBalance`. A fresh cached balance is returned as stored.
        Otherwise, when every read succeeds, the aggregate is computed,
        written under the address with `lastUpdated = now`, and returned. A
        missing key or address, or any failed call, gives the degraded result
        and writes nothing. */
    method FetchWalletBalance(apiKeySet: bool, address: Option<string>, now: int, io: Reads) returns (wb: WalletBalance)
      requires |io.tokenResults| == |ETH_TOKENS|
      modifies this
      ensures !apiKeySet || address.None? || address == Some("") || !io.cacheReadOk ==>
                wb == Degraded(now) && entries == old(entries)
      ensures apiKeySet && address.Some? && address != Some("") && io.cacheReadOk ==>
                var a := address.value;
                if a in old(entries) && IsFresh(old(entries)[a], now) then
                  wb == old(entries)[a] && entries == old(entries)
                else if io.ethBalance.Some? && io.priceAnswer.Some? && io.cacheWriteOk then
                  wb == Aggregate(io.ethBalance.value, FetchTokenBalances(ETH_TOKENS, io.tokenResults), GetEthPrice(io.priceAnswer.value), now)
                  && entries == old(entries)[a := wb]
                else
                  wb == Degraded(now) && entries == old(entries)
    {
      if !apiKeySet || address.None? || address == Some("") || !io.cacheReadOk {
        return Degraded(now);
      }
      var a := address.value;
      var cachedBalance := GetCachedBalance(a, now);
      if cachedBalance.Some? {
        return cachedBalance.value;
      }
      if io.ethBalance.None? || io.priceAnswer.None? {
        return Degraded(now);
      }
      var eth := io.ethBalance.value;
      var tokenBalances := FetchTokenBalances(ETH_TOKENS, io.tokenResults);
      var ethPrice := GetEthPrice(io.priceAnswer.value);
      var totalBalanceUsd, updatedBalances := PriceTokens(tokenBalances, ethPrice);

      var ethBalanceUsd := eth * ethPrice;
      totalBalanceUsd := totalBalanceUsd + ethBalanceUsd;
      updatedBalances := [EthEntry(eth, ethPrice)] + updatedBalances;

      var walletBalance := WalletBalance(totalBalanceUsd, PositiveOnly(updatedBalances), now);
      if !io.cacheWriteOk {
        return Degraded(now);
      }
      entries := entries[a := walletBalance];
      wb := walletBalance;
    }
  }
}
