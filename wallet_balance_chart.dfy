/** The admin histogram of wallet balances
    (src/app/components/WalletBalanceChart.tsx): seven constant bins, counted
    with `filter(...).length`. */
module WalletBalanceChart {

  import opened Types

  datatype Wallet = Wallet(balance: real)

  datatype BalanceBin = BalanceBin(binLabel: string, min: real, max: Bound)

  const ALL_USERS := "All Users"
  const NON_ZERO_USERS := "All Users with a Non-Zero Balance"

  const BALANCE_BRACKETS: seq<BalanceBin> := [
    BalanceBin(ALL_USERS, 0.0, Infinity),
    BalanceBin(NON_ZERO_USERS, 0.000000000000000001, Infinity),
    BalanceBin("Shrimp (0-0.1 ETH)", 0.0, Finite(0.1)),
    BalanceBin("Crab (0.1-1 ETH)", 0.1, Finite(1.0)),
    BalanceBin("Fish (1-10 ETH)", 1.0, Finite(10.0)),
    BalanceBin("Dolphin (10-32 ETH)", 10.0, Finite(32.0)),
    BalanceBin("Whale (32 ETH +)", 32.0, Infinity)
  ]

  /** A tier bin is half-open with the lower end inclusive: min <= b < max. */
  predicate InBin(balance: real, bin: BalanceBin) {
    balance >= bin.min && bin.max.Above(balance)
  }

  /** `walletData.filter(wallet => InBin(wallet.balance, bin)).length` */
  function CountInBin(wallets: seq<Wallet>, bin: BalanceBin): (n: nat)
    ensures n <= |wallets|
    decreases |wallets|
  {
    if |wallets| == 0 then 0
    else CountInBin(wallets[..|wallets| - 1], bin) + (if InBin(wallets[|wallets| - 1].balance, bin) then 1 else 0)
  }

  /** `walletData.filter(wallet => wallet.balance > 0).length` */
  function CountPositive(wallets: seq<Wallet>): (n: nat)
    ensures n <= |wallets|
    decreases |wallets|
  {
    if |wallets| == 0 then 0
    else CountPositive(wallets[..|wallets| - 1]) + (if wallets[|wallets| - 1].balance > 0.0 then 1 else 0)
  }

  /** Number of wallets with a balance of at least 0. */
  function CountNonNegative(wallets: seq<Wallet>): (n: nat)
    ensures n <= |wallets|
    decreases |wallets|
  {
    if |wallets| == 0 then 0
    else CountNonNegative(wallets[..|wallets| - 1]) + (if wallets[|wallets| - 1].balance >= 0.0 then 1 else 0)
  }

  /** The callback of `balanceBrackets.map`, which dispatches on the label. */
  function BinCount(wallets: seq<Wallet>, bin: BalanceBin): (n: nat)
    ensures n <= |wallets|
    ensures bin.binLabel == ALL_USERS ==> n == |wallets|
  {
    if bin.binLabel == ALL_USERS then |wallets|
    else if bin.binLabel == NON_ZERO_USERS then CountPositive(wallets)
    else CountInBin(wallets, bin)
  }

  function CountsFor(wallets: seq<Wallet>, bins: seq<BalanceBin>): (counts: seq<nat>)
    ensures |counts| == |bins|
    ensures forall i :: 0 <= i < |bins| ==> counts[i] == BinCount(wallets, bins[i])
    decreases |bins|
  {
    if |bins| == 0 then [] else [BinCount(wallets, bins[0])] + CountsFor(wallets, bins[1..])
  }

  /** `bracketCounts` */
  function BracketCounts(wallets: seq<Wallet>): (counts: seq<nat>)
    ensures |counts| == 7
  {
    CountsFor(wallets, BALANCE_BRACKETS)
  }

  /** Seven counts in label order: all wallets, the positive ones, then the
      five half-open tier bins. */
  lemma BracketCountsMeaning(wallets: seq<Wallet>)
    ensures BracketCounts(wallets)[0] == |wallets|
    ensures BracketCounts(wallets)[1] == CountPositive(wallets)
    ensures forall i :: 2 <= i < 7 ==> BracketCounts(wallets)[i] == CountInBin(wallets, BALANCE_BRACKETS[i])
  {
    var counts := BracketCounts(wallets);
    TierLabelsAreOther();
    assert counts[0] == BinCount(wallets, BALANCE_BRACKETS[0]);
    assert counts[1] == BinCount(wallets, BALANCE_BRACKETS[1]);
    assert forall i :: 2 <= i < 7 ==> counts[i] == BinCount(wallets, BALANCE_BRACKETS[i]);
  }

  /** Only the first two bins are dispatched by label. */
  lemma TierLabelsAreOther()
    ensures BALANCE_BRACKETS[1].binLabel != ALL_USERS
    ensures forall i :: 2 <= i < 7 ==> BALANCE_BRACKETS[i].binLabel != ALL_USERS && BALANCE_BRACKETS[i].binLabel != NON_ZERO_USERS
  {
    assert |NON_ZERO_USERS| != |ALL_USERS|;
    forall i | 2 <= i < 7
      ensures BALANCE_BRACKETS[i].binLabel != ALL_USERS && BALANCE_BRACKETS[i].binLabel != NON_ZERO_USERS
    {
      assert BALANCE_BRACKETS[i].binLabel[0] != 'A';
    }
  }

  /** The bins put 0 in Shrimp and 0.1 in Crab (lower end inclusive). */
  lemma BinBoundaries()
    ensures InBin(0.0, BALANCE_BRACKETS[2])
    ensures !InBin(0.1, BALANCE_BRACKETS[2]) && InBin(0.1, BALANCE_BRACKETS[3])
    ensures !InBin(1.0, BALANCE_BRACKETS[3]) && InBin(1.0, BALANCE_BRACKETS[4])
    ensures !InBin(10.0, BALANCE_BRACKETS[4]) && InBin(10.0, BALANCE_BRACKETS[5])
    ensures !InBin(32.0, BALANCE_BRACKETS[5]) && InBin(32.0, BALANCE_BRACKETS[6])
  {
  }

  /** The five tier bins are disjoint, cover [0, inf), and miss negatives. */
  lemma TierBinsPartition(balance: real)
    ensures forall i, j :: 2 <= i < 7 && 2 <= j < 7 && InBin(balance, BALANCE_BRACKETS[i]) && InBin(balance, BALANCE_BRACKETS[j]) ==> i == j
    ensures balance >= 0.0 ==> exists i :: 2 <= i < 7 && InBin(balance, BALANCE_BRACKETS[i])
    ensures balance < 0.0 ==> forall i :: 2 <= i < 7 ==> !InBin(balance, BALANCE_BRACKETS[i])
  {
    if balance >= 0.0 {
      if balance < 0.1 { assert InBin(balance, BALANCE_BRACKETS[2]); }
      else if balance < 1.0 { assert InBin(balance, BALANCE_BRACKETS[3]); }
      else if balance < 10.0 { assert InBin(balance, BALANCE_BRACKETS[4]); }
      else if balance < 32.0 { assert InBin(balance, BALANCE_BRACKETS[5]); }
      else { assert InBin(balance, BALANCE_BRACKETS[6]); }
    }
  }

  /** The five tier counts add up to the number of wallets with balance >= 0. */
  lemma {:induction false} TierCountsSum(wallets: seq<Wallet>)
    ensures CountInBin(wallets, BALANCE_BRACKETS[2]) + CountInBin(wallets, BALANCE_BRACKETS[3])
            + CountInBin(wallets, BALANCE_BRACKETS[4]) + CountInBin(wallets, BALANCE_BRACKETS[5])
            + CountInBin(wallets, BALANCE_BRACKETS[6]) == CountNonNegative(wallets)
    decreases |wallets|
  {
    if |wallets| > 0 {
      TierCountsSum(wallets[..|wallets| - 1]);
      TierBinsPartition(wallets[|wallets| - 1].balance);
    }
  }

  /** The tier counts add up to the 'All Users' count when no balance is
      negative. */
  lemma {:induction false} NonNegativeIsAll(wallets: seq<Wallet>)
    requires forall i :: 0 <= i < |wallets| ==> wallets[i].balance >= 0.0
    ensures CountNonNegative(wallets) == |wallets|
    decreases |wallets|
  {
    if |wallets| > 0 {
      NonNegativeIsAll(wallets[..|wallets| - 1]);
    }
  }
}
