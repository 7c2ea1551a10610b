/** Largest-first selection of the coins that fund a channel. */
module CoinSelection {
  import opened Types

  const TWO_64: nat := 0x1_0000_0000_0000_0000

  /** Derivation index of an address: unhardened, below 2^31. */
  type Index = x: nat | x < 0x8000_0000

  /** A coin of the wallet, with the branch (change or not) and index of its address. */
  datatype Funds = Funds(outpoint: OutPoint, change: bool, index: Index, amount: U64)

  function AddU64(x: U64, y: U64): U64 { (x + y) % 0x1_0000_0000_0000_0000 }

  function Total(funds: seq<Funds>): nat {
    if funds == [] then 0 else funds[0].amount + Total(funds[1..])
  }

  // ---------- Sorting ----------

  predicate Ascending(funds: seq<Funds>) {
    forall i, j | 0 <= i < j < |funds| :: funds[i].amount <= funds[j].amount
  }

  predicate Descending(funds: seq<Funds>) {
    forall i, j | 0 <= i < j < |funds| :: funds[i].amount >= funds[j].amount
  }

  function WithAmount(funds: seq<Funds>, amount: nat): seq<Funds> {
    if funds == [] then []
    else (if funds[0].amount == amount then [funds[0]] else []) + WithAmount(funds[1..], amount)
  }

  /** Inserts after all coins that are not larger. */
  function Insert(f: Funds, sorted: seq<Funds>): seq<Funds> {
    if sorted == [] || f.amount < sorted[0].amount then [f] + sorted
    else [sorted[0]] + Insert(f, sorted[1..])
  }

  function SortByAmount(funds: seq<Funds>): seq<Funds> {
    if funds == [] then []
    else Insert(funds[|funds| - 1], SortByAmount(funds[..|funds| - 1]))
  }

  lemma {:induction false} InsertKeeps(f: Funds, sorted: seq<Funds>)
    ensures multiset(Insert(f, sorted)) == multiset(sorted) + multiset{f}
    decreases |sorted|
  {
    if sorted != [] && f.amount >= sorted[0].amount {
      InsertKeeps(f, sorted[1..]);
      assert sorted == [sorted[0]] + sorted[1..];
    }
  }

  lemma {:induction false} InsertSorts(f: Funds, sorted: seq<Funds>)
    requires Ascending(sorted)
    ensures Ascending(Insert(f, sorted))
    ensures forall x | x in Insert(f, sorted) :: x == f || x in sorted
    decreases |sorted|
  {
    if sorted != [] && f.amount >= sorted[0].amount {
      InsertSorts(f, sorted[1..]);
      var rest := Insert(f, sorted[1..]);
      assert forall j | 0 <= j < |rest| :: rest[j] == f || rest[j] in sorted[1..];
    }
  }

  lemma {:induction false} InsertIsStable(f: Funds, sorted: seq<Funds>, amount: nat)
    requires Ascending(sorted)
    ensures WithAmount(Insert(f, sorted), amount) ==
            WithAmount(sorted, amount) + (if f.amount == amount then [f] else [])
    decreases |sorted|
  {
    if sorted != [] && f.amount >= sorted[0].amount {
      InsertIsStable(f, sorted[1..], amount);
      assert Insert(f, sorted)[1..] == Insert(f, sorted[1..]);
    } else {
      assert ([f] + sorted)[1..] == sorted;
      if f.amount == amount {
        NoneWithAmount(sorted, amount);
      }
    }
  }

  lemma {:induction false} NoneWithAmount(funds: seq<Funds>, amount: nat)
    requires forall i | 0 <= i < |funds| :: funds[i].amount > amount
    ensures WithAmount(funds, amount) == []
    decreases |funds|
  {
    if funds != [] {
      NoneWithAmount(funds[1..], amount);
    }
  }

  lemma {:induction false} WithAmountSnoc(funds: seq<Funds>, f: Funds, amount: nat)
    ensures WithAmount(funds + [f], amount) == WithAmount(funds, amount) + (if f.amount == amount then [f] else [])
    decreases |funds|
  {
    if funds == [] {
      assert [f][1..] == [] && funds + [f] == [f];
    } else {
      assert (funds + [f])[1..] == funds[1..] + [f];
      WithAmountSnoc(funds[1..], f, amount);
    }
  }

  /** A stable sort by amount: in order, nothing lost or added, ties in their first order. */
  lemma {:induction false} SortIsStableSort(funds: seq<Funds>)
    ensures Ascending(SortByAmount(funds)) && multiset(SortByAmount(funds)) == multiset(funds)
    ensures forall amount: nat :: WithAmount(SortByAmount(funds), amount) == WithAmount(funds, amount)
    decreases |funds|
  {
    if funds != [] {
      var init, f := funds[..|funds| - 1], funds[|funds| - 1];
      assert funds == init + [f];
      SortIsStableSort(init);
      InsertSorts(f, SortByAmount(init));
      InsertKeeps(f, SortByAmount(init));
      forall amount: nat
        ensures WithAmount(SortByAmount(funds), amount) == WithAmount(funds, amount)
      {
        InsertIsStable(f, SortByAmount(init), amount);
        WithAmountSnoc(init, f, amount);
      }
    }
  }

  function Reverse(funds: seq<Funds>): seq<Funds> {
    seq(|funds|, i requires 0 <= i < |funds| => funds[|funds| - 1 - i])
  }

  lemma {:induction false} ReverseKeeps(funds: seq<Funds>)
    ensures multiset(Reverse(funds)) == multiset(funds)
    decreases |funds|
  {
    if funds != [] {
      var init, f := funds[..|funds| - 1], funds[|funds| - 1];
      assert funds == init + [f];
      assert Reverse(funds) == [f] + Reverse(init);
      ReverseKeeps(init);
    }
  }

  /** The coins from the largest to the smallest. */
  function LargestFirst(funds: seq<Funds>): seq<Funds> { Reverse(SortByAmount(funds)) }

  lemma LargestFirstDescends(funds: seq<Funds>)
    ensures Descending(LargestFirst(funds)) && multiset(LargestFirst(funds)) == multiset(funds)
  {
    SortIsStableSort(funds);
    ReverseKeeps(SortByAmount(funds));
  }

  // ---------- Selection ----------

  /** How many coins are taken from the front before the 64-bit sum reaches the target. */
  function Taken(coins: seq<Funds>, acc: U64, target: U64): nat {
    if coins == [] || acc >= target then 0
    else 1 + Taken(coins[1..], AddU64(acc, coins[0].amount), target)
  }

  function SumU64(coins: seq<Funds>): U64 {
    Total(coins) % 0x1_0000_0000_0000_0000
  }

  function Selected(funds: seq<Funds>, target: U64): seq<Funds> {
    var coins := LargestFirst(funds);
    TakenInRange(coins, 0, target);
    coins[..Taken(coins, 0, target)]
  }

  lemma {:induction false} TakenInRange(coins: seq<Funds>, acc: U64, target: U64)
    ensures Taken(coins, acc, target) <= |coins|
    decreases |coins|
  {
    if coins != [] && acc < target {
      TakenInRange(coins[1..], AddU64(acc, coins[0].amount), target);
    }
  }

  lemma {:induction false} TotalSnoc(funds: seq<Funds>, f: Funds)
    ensures Total(funds + [f]) == Total(funds) + f.amount
    decreases |funds|
  {
    if funds == [] {
      assert funds + [f] == [f] && [f][1..] == [];
    } else {
      assert (funds + [f])[1..] == funds[1..] + [f];
      TotalSnoc(funds[1..], f);
    }
  }

  lemma SumSnoc(funds: seq<Funds>, f: Funds)
    ensures SumU64(funds + [f]) == AddU64(SumU64(funds), f.amount)
  {
    TotalSnoc(funds, f);
  }

  lemma TakenOne(coins: seq<Funds>, k: nat, acc: U64, target: U64)
    requires k < |coins| && acc < target
    ensures Taken(coins[k..], acc, target) == 1 + Taken(coins[k + 1..], AddU64(acc, coins[k].amount), target)
  {
    assert coins[k..][1..] == coins[k + 1..];
  }

  lemma {:induction false} TotalConcat(xs: seq<Funds>, ys: seq<Funds>)
    ensures Total(xs + ys) == Total(xs) + Total(ys)
    decreases |xs|
  {
    if xs == [] {
      assert xs + ys == ys;
    } else {
      assert (xs + ys)[1..] == xs[1..] + ys;
      TotalConcat(xs[1..], ys);
    }
  }

  /** The wallet's loop over the sorted coins, from the last to the first. */
  method SelectCoins(sorted: seq<Funds>, target: U64) returns (inputs: seq<Funds>, acc: U64)
    ensures
      var coins := Reverse(sorted);
      var n := Taken(coins, 0, target);
      n <= |coins| && inputs == coins[..n] && acc == SumU64(coins[..n])
  {
    ghost var coins := Reverse(sorted);
    TakenInRange(coins, 0, target);
    var i := |sorted|;
    inputs, acc := [], 0;
    while i > 0 && acc < target
      invariant 0 <= i <= |sorted| && inputs == coins[..|sorted| - i]
      invariant acc == SumU64(inputs)
      invariant Taken(coins, 0, target) == |sorted| - i + Taken(coins[|sorted| - i..], acc, target)
    {
      TakenOne(coins, |sorted| - i, acc, target);
      i := i - 1;
      SumSnoc(inputs, sorted[i]);
      inputs := inputs + [sorted[i]];
      acc := AddU64(acc, sorted[i].amount);
    }
  }

  /** The selection stops as soon as the target is reached and not before, or takes it all. */
  lemma {:induction false} TakenStops(coins: seq<Funds>, acc: U64, target: U64)
    requires acc + Total(coins) < TWO_64
    ensures
      var n := Taken(coins, acc, target);
      && n <= |coins|
      && (acc + Total(coins[..n]) >= target || n == |coins|)
      && (n > 0 ==> acc + Total(coins[..n - 1]) < target)
    decreases |coins|
  {
    TakenInRange(coins, acc, target);
    if coins != [] && acc < target {
      var n := Taken(coins, acc, target);
      var rest := AddU64(acc, coins[0].amount);
      TakenStops(coins[1..], rest, target);
      assert coins[..n][1..] == coins[1..][..n - 1];
      assert n > 1 ==> coins[..n - 1][1..] == coins[1..][..n - 2];
      assert n == 1 ==> coins[..n - 1] == [];
    }
  }

  lemma {:induction false} TotalOfBag(xs: seq<Funds>, ys: seq<Funds>)
    requires multiset(xs) == multiset(ys)
    ensures Total(xs) == Total(ys)
    decreases |xs|
  {
    if xs == [] {
      assert |multiset(ys)| == 0;
      assert ys == [];
    } else {
      var i := IndexOf(ys, xs[0]);
      RemoveAt(ys, i);
      assert xs == [xs[0]] + xs[1..];
      TotalOfBag(xs[1..], ys[..i] + ys[i + 1..]);
    }
  }

  lemma IndexOf(ys: seq<Funds>, x: Funds) returns (i: nat)
    requires x in multiset(ys)
    ensures i < |ys| && ys[i] == x
  {
    i :| 0 <= i < |ys| && ys[i] == x;
  }

  lemma RemoveAt(ys: seq<Funds>, i: nat)
    requires i < |ys|
    ensures multiset(ys[..i] + ys[i + 1..]) == multiset(ys) - multiset{ys[i]}
    ensures Total(ys) == Total(ys[..i] + ys[i + 1..]) + ys[i].amount
  {
    RemoveMiddle(ys[..i], ys[i], ys[i + 1..]);
    SplitAt(ys, i);
  }

  lemma SplitAt(ys: seq<Funds>, i: nat)
    requires i < |ys|
    ensures ys[..i] + ([ys[i]] + ys[i + 1..]) == ys
  {
  }

  lemma RemoveMiddle(xs: seq<Funds>, f: Funds, ys: seq<Funds>)
    ensures multiset(xs + ys) == multiset(xs + ([f] + ys)) - multiset{f}
    ensures Total(xs + ([f] + ys)) == Total(xs + ys) + f.amount
  {
    TotalConcat(xs, [f] + ys);
    TotalConcat(xs, ys);
    assert ([f] + ys)[1..] == ys;
  }

  /** Leaving out one coin, the first of `coins` if it is there, leaves a choice among the rest. */
  lemma LeaveOneOut(coins: seq<Funds>, other: seq<Funds>) returns (i: nat)
    requires Descending(coins) && multiset(other) <= multiset(coins) && other != []
    ensures i < |other| && coins != [] && other[i].amount <= coins[0].amount
    ensures multiset(other[..i] + other[i + 1..]) <= multiset(coins[1..])
  {
    assert other[0] in multiset(coins);
    var x := coins[0];
    assert coins == [x] + coins[1..];
    i := 0;
    if x in multiset(other) {
      i := IndexOf(other, x);
    }
    RemoveAt(other, i);
    assert other[i] in multiset(coins);
  }

  /** No choice of coins beats as many of the largest ones. */
  lemma {:induction false} LargestAreBest(coins: seq<Funds>, other: seq<Funds>)
    requires Descending(coins) && multiset(other) <= multiset(coins)
    ensures |other| <= |coins| && Total(other) <= Total(coins[..|other|])
    decreases |coins|
  {
    if other != [] {
      var i := LeaveOneOut(coins, other);
      RemoveAt(other, i);
      var rest := other[..i] + other[i + 1..];
      LargestAreBest(coins[1..], rest);
      assert coins[..|other|][1..] == coins[1..][..|rest|];
    }
  }

  lemma {:induction false} TotalOfPrefix(coins: seq<Funds>, m: nat, n: nat)
    requires m <= n <= |coins|
    ensures Total(coins[..m]) <= Total(coins[..n]) <= Total(coins)
  {
    TotalConcat(coins[..m], coins[m..n]);
    assert coins[..n] == coins[..m] + coins[m..n];
    TotalConcat(coins[..n], coins[n..]);
    assert coins == coins[..n] + coins[n..];
  }

  /** The selection is the shortest sufficient prefix of the coins, largest first. */
  lemma SelectionStops(funds: seq<Funds>, target: U64)
    requires Total(funds) < TWO_64
    ensures
      var coins := LargestFirst(funds);
      var inputs := Selected(funds, target);
      && |inputs| <= |coins| && inputs == coins[..|inputs|] && Total(inputs) <= Total(funds)
      && (Total(inputs) >= target <==> Total(funds) >= target)
      && (inputs != [] ==> Total(coins[..|inputs| - 1]) < target)
  {
    var coins := LargestFirst(funds);
    LargestFirstDescends(funds);
    TotalOfBag(coins, funds);
    TakenStops(coins, 0, target);
    var n := Taken(coins, 0, target);
    TotalOfPrefix(coins, 0, n);
    assert n == |coins| ==> coins[..n] == coins;
  }

  lemma PrefixFallsShort(coins: seq<Funds>, n: nat, target: nat, other: seq<Funds>)
    requires Descending(coins) && 0 < n <= |coins| && Total(coins[..n - 1]) < target
    requires multiset(other) <= multiset(coins) && |other| < n
    ensures Total(other) < target
  {
    LargestAreBest(coins, other);
    TotalOfPrefix(coins, |other|, n - 1);
  }

  /** Every choice of fewer coins falls short. */
  lemma FewerFallShort(funds: seq<Funds>, target: U64, other: seq<Funds>)
    requires Total(funds) < TWO_64
    requires multiset(other) <= multiset(funds) && |other| < |Selected(funds, target)|
    ensures Total(other) < target
  {
    SelectionStops(funds, target);
    LargestFirstDescends(funds);
    PrefixFallsShort(LargestFirst(funds), |Selected(funds, target)|, target, other);
  }

  lemma SelectionIsFromFunds(funds: seq<Funds>, target: U64)
    ensures multiset(Selected(funds, target)) <= multiset(funds)
  {
    var coins := LargestFirst(funds);
    LargestFirstDescends(funds);
    TakenInRange(coins, 0, target);
    var n := Taken(coins, 0, target);
    assert coins == coins[..n] + coins[n..];
  }

  /** Coin selection is complete and optimal in the number of inputs: it reaches the target
      exactly if the funds do; then dropping the last pick falls short, and so does every
      choice of fewer coins. */
  lemma SelectionIsOptimal(funds: seq<Funds>, target: U64)
    requires Total(funds) < TWO_64
    ensures
      var inputs := Selected(funds, target);
      && multiset(inputs) <= multiset(funds)
      && (Total(inputs) >= target <==> Total(funds) >= target)
      && (inputs != [] ==> Total(inputs[..|inputs| - 1]) < target)
      && (forall other | multiset(other) <= multiset(funds) && |other| < |inputs| :: Total(other) < target)
  {
    var inputs := Selected(funds, target);
    SelectionStops(funds, target);
    SelectionIsFromFunds(funds, target);
    assert inputs != [] ==> inputs[..|inputs| - 1] == LargestFirst(funds)[..|inputs| - 1];
    forall other | multiset(other) <= multiset(funds) && |other| < |inputs|
      ensures Total(other) < target
    {
      FewerFallShort(funds, target, other);
    }
  }

  /** `cs` is a choice of the listed coins worth `target`, and no choice of fewer is. */
  ghost predicate Fewest(cs: seq<Funds>, listed: seq<Funds>, target: nat) {
    && multiset(cs) <= multiset(listed) && Total(cs) >= target
    && forall other | multiset(other) <= multiset(listed) && |other| < |cs| :: Total(other) < target
  }

  lemma SelectedIsFewest(funds: seq<Funds>, target: U64)
    requires Total(funds) < TWO_64 && SumU64(Selected(funds, target)) >= target
    ensures Fewest(Selected(funds, target), funds, target)
  {
    SelectionIsOptimal(funds, target);
    RefusesWrapped(funds, target);
  }

  /** What the code compares with: the sum of amount and fee estimate in 64 bits. */
  function Target(amount: U64, feerate: U32): U64 { AddU64(amount, 2 * feerate) }

  predicate Refuses(funds: seq<Funds>, amount: U64, feerate: U32) {
    SumU64(Selected(funds, Target(amount, feerate))) < Target(amount, feerate)
  }

  /** The wallet refuses exactly when its funds are below amount plus fee estimate, if and only
      if that sum fits 64 bits or the funds are short even of the wrapped sum. */
  lemma RefusesExactlyWhenShort(funds: seq<Funds>, amount: U64, feerate: U32)
    requires Total(funds) < TWO_64
    ensures (Refuses(funds, amount, feerate) <==> Total(funds) < amount + 2 * feerate)
       <==> (amount + 2 * feerate < TWO_64 || Total(funds) + TWO_64 < amount + 2 * feerate)
  {
    RefusesWrapped(funds, Target(amount, feerate));
    assert Target(amount, feerate) ==
           if amount + 2 * feerate < TWO_64 then amount + 2 * feerate else amount + 2 * feerate - TWO_64;
  }

  lemma RefusesWrapped(funds: seq<Funds>, target: U64)
    requires Total(funds) < TWO_64
    ensures SumU64(Selected(funds, target)) < target <==> Total(funds) < target
    ensures SumU64(Selected(funds, target)) == Total(Selected(funds, target))
  {
    SelectionStops(funds, target);
  }

  /** A request near the 64-bit limit is met with far too few coins. */
  lemma WrappedTargetIsMet(coin: Funds)
    requires coin.amount == 15999
    ensures !Refuses([coin], TWO_64 - 1, 8000)
  {
    assert Total([coin]) == 15999 by {
      assert [coin][1..] == [];
    }
    RefusesWrapped([coin], Target(TWO_64 - 1, 8000));
  }
}
