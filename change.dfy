/**
 * Coins and change-making for the vending machine.
 *
 * The machine handles three coins: quarters (25 cents), dimes (10 cents) and
 * nickels (5 cents). After a purchase it rebuilds its coin registers from the
 * change by taking as many quarters as fit, then as many dimes, then as many
 * nickels; whatever is left below 5 cents is dropped.
 */
module Change {

  /** A count of each coin. Counts are plain integers: the machine does not
      validate its construction parameters, so a count may be negative. */
  datatype Coins = Coins(quarters: int, dimes: int, nickels: int) {

    /** The value of the coins in cents. */
    function Cents(): int {
      25 * quarters + 10 * dimes + 5 * nickels
    }

    /** The number of coins. */
    function Count(): int {
      quarters + dimes + nickels
    }
  }

  /** The coins left after inserting a coin worth `amount` cents: a
      recognised coin adds one to its own count, anything else adds nothing. */
  function AddCoin(c: Coins, amount: int): (r: Coins)
    ensures amount == 5 || amount == 10 || amount == 25 ==>
              r.Cents() == c.Cents() + amount && r.Count() == c.Count() + 1
    ensures amount != 5 && amount != 10 && amount != 25 ==> r == c
    ensures r.quarters >= c.quarters && r.dimes >= c.dimes && r.nickels >= c.nickels
  {
    if amount == 5 then c.(nickels := c.nickels + 1)
    else if amount == 10 then c.(dimes := c.dimes + 1)
    else if amount == 25 then c.(quarters := c.quarters + 1)
    else c
  }

  /** Reference definition of the greedy change for `change` cents, in
      closed form: no coins for a negative amount, otherwise as many quarters
      as fit, then as many dimes as fit in the rest, then nickels. */
  function Greedy(change: int): Coins {
    if change < 0 then Coins(0, 0, 0)
    else Coins(change / 25, change % 25 / 10, change % 25 % 10 / 5)
  }

  /** The greedy change for a non-negative amount is worth the amount less
      its sub-nickel remainder, so it is exact just for whole nickels; it
      never holds more than two dimes and one nickel, nor a quarter's worth
      of them. A negative amount gets no coins. */
  lemma GreedyValue(change: int)
    ensures change < 0 ==> Greedy(change) == Coins(0, 0, 0)
    ensures change >= 0 ==>
              var r := Greedy(change);
              && r.quarters >= 0 && 0 <= r.dimes <= 2 && 0 <= r.nickels <= 1
              && 10 * r.dimes + 5 * r.nickels < 25
              && r.Cents() == change - change % 5
    ensures change >= 0 ==> (Greedy(change).Cents() == change <==> change % 5 == 0)
  {
  }

  /** The three greedy loops of a purchase: count out quarters, then dimes,
      then nickels while enough change remains. */
  method MakeChange(change: int) returns (quarters: int, dimes: int, nickels: int)
    ensures Coins(quarters, dimes, nickels) == Greedy(change)
  {
    var rest := change;
    quarters, dimes, nickels := 0, 0, 0;
    while rest >= 25
      invariant quarters >= 0 && 25 * quarters + rest == change
      invariant quarters > 0 ==> rest >= 0
      decreases rest
    {
      quarters := quarters + 1;
      rest := rest - 25;
    }
    ghost var afterQuarters := rest;
    while rest >= 10
      invariant dimes >= 0 && 10 * dimes + rest == afterQuarters
      invariant dimes > 0 ==> rest >= 0
      decreases rest
    {
      dimes := dimes + 1;
      rest := rest - 10;
    }
    ghost var afterDimes := rest;
    while rest >= 5
      invariant nickels >= 0 && 5 * nickels + rest == afterDimes
      invariant nickels > 0 ==> rest >= 0
      decreases rest
    {
      nickels := nickels + 1;
      rest := rest - 5;
    }
    if change >= 0 {
      assert quarters == change / 25 && afterQuarters == change % 25;
      assert dimes == afterQuarters / 10 && afterDimes == afterQuarters % 10;
      assert nickels == afterDimes / 5;
    }
  }

  /** No way of paying out the amount the greedy change is worth uses fewer
      coins than the greedy change. */
  lemma {:induction false} GreedyIsOptimal(a: nat, b: nat, n: nat)
    ensures Greedy(Coins(a, b, n).Cents()).Cents() == Coins(a, b, n).Cents()
    ensures Greedy(Coins(a, b, n).Cents()).Count() <= a + b + n
    decreases a + b + n
  {
    if n >= 2 {
      // two nickels make a dime
      GreedyIsOptimal(a, b + 1, n - 2);
    } else if b >= 3 {
      // three dimes make a quarter and a nickel
      GreedyIsOptimal(a + 1, b - 3, n + 1);
    } else if b == 2 && n == 1 {
      // two dimes and a nickel make a quarter
      GreedyIsOptimal(a + 1, 0, 0);
    } else {
      var v := Coins(a, b, n).Cents();
      var low := 10 * b + 5 * n;
      assert 0 <= low < 25 && v == 25 * a + low;
      assert v / 25 == a && v % 25 == low;
      assert low / 10 == b && low % 10 == 5 * n;
      assert Greedy(v) == Coins(a, b, n);
    }
  }
}
