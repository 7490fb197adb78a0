# Vending machine model

A model of the `Model` class of a classroom vending machine (package
`vendingMachine`). The machine sells Coke and Pepsi at two fixed prices,
accepts nickels, dimes and quarters, and keeps:

- the stock and the bought count of each product;
- coin registers (quarters, dimes, nickels) for the current customer;
- a base reserve of each coin, which grows with every coin deposited and to
  which the registers return on a cancel;
- the deposited total in cents, and a status message.

Three buttons change this state: deposit a coin, buy a product, cancel.

The project has three modules:

- `Change` (change.dfy): coins, inserting a coin, and the greedy change
  (quarters, then dimes, then nickels, sub-nickel remainder dropped). It gives
  a closed-form reference `Greedy` with its value proved in `GreedyValue`, the loops of a purchase as the method
  `MakeChange` proved equal to it, and a proof that the greedy change uses the
  fewest coins.
- `Machine` (machine.dfy): the machine's state as a value `State`, and pure
  transition functions `Initial`, `Deposit`, `Buy` and `Cancel` whose
  contracts state each operation's effect. It also holds lemmas about
  purchases, cancels and any sequence of button presses.
- `VendingMachine` (model.dfy): the class `Model` with the source's integer
  fields. Its constructor and its `Deposit`, `Buy` and `Cancel` methods update
  the fields in place. Each is proved to take `Snapshot()` to exactly the
  state the matching `Machine` function gives.

Two quirks of the code are kept as written and exposed by lemmas:

- A Pepsi purchase computes the change from the Coke price but takes the
  Pepsi price off the deposited total (Model.java:149-150). When the deposit
  covers the Coke price and the change is a whole number of nickels, the
  registers afterwards agree with the deposited total exactly when the two
  prices are equal (`PepsiBalancedIffSamePrice`, `PepsiPriceMismatchExample`).
  Outside those conditions the gap also depends on the dropped remainder, or
  the registers are simply emptied (`PepsiPurchaseRegisters`).
- Cancel adds a refund of the purchases to the deposited total, then
  overwrites the total from the reserve (Model.java:90 and :98). So what a
  cancel leaves never depends on the deposit or the purchases
  (`CancelForgetsHistory`).

Three consequences of the code that are easy to miss:

- With Coke at 75 cents and a dollar deposited, a Coke purchase leaves
  25 cents deposited, not 0 (`CokePurchaseExample`).
- The deposited total is recomputed from all coins in the registers,
  including those the machine was built with. Two nickels and a quarter make
  35 cents only in a machine built with coins worth 0 in total
  (`DepositExample`, `DepositCountsInitialCoins`).
- Right after construction the deposited total is 0 even when the registers
  hold coins, so the two agree only when the initial coins are worth 0 in
  total (`Initial`).

## Model

| member | source | states |
|---|---|---|
| Change.AddCoin | vendingMachine/Model.java:104-117 | a 5, 10 or 25 cent coin adds one coin of that kind and exactly its value; any other amount adds nothing |
| Change.GreedyValue | vendingMachine/Model.java:131-142 | the greedy change for a non-negative amount is worth the amount less its remainder mod 5, with at most 2 dimes, at most 1 nickel and less than a quarter in dimes and nickels; exact iff the amount is a multiple of 5; no coins for a negative amount |
| Change.MakeChange | vendingMachine/Model.java:131-142 | the three counting loops produce exactly the greedy change |
| Change.GreedyIsOptimal | vendingMachine/Model.java:131-142 | any handful of coins is worth what the greedy change for its value is worth, and has at least as many coins |
| Machine.Select | vendingMachine/Model.java:122-146 | a name starting with 'C' selects Coke, one starting with 'P' selects Pepsi, any other selects nothing |
| Machine.Initial | vendingMachine/Model.java:71-85 | registers and reserve equal the given coins, bought counts and deposit 0, message "Hi!"; balanced only when the given coins are worth 0 |
| Machine.Deposit | vendingMachine/Model.java:103-118 | the deposited total equals the registers' value afterwards; a recognised coin adds one to its register and its reserve and its value to the total; another amount changes nothing but the total |
| Machine.Buy | vendingMachine/Model.java:121-171 | a purchase succeeds iff the product is in stock and the deposit covers its price; success moves one item from stock to bought, takes the price off the deposit and sets the registers to the greedy change (from the Coke price in both branches); failure only sets the not-enough-money message; an unknown product changes nothing; the reserve and prices never change |
| Machine.Cancel | vendingMachine/Model.java:89-101 | registers equal the reserve, the deposit equals the reserve's value, stock grows by the bought counts, bought counts are 0, message "Hi!" |
| Machine.CancelIdempotent | vendingMachine/Model.java:89-98 | a second cancel right after a first changes nothing |
| Machine.CancelForgetsHistory | vendingMachine/Model.java:90-98 | two states with the same reserve, prices and total stock cancel to the same state: the refund is discarded |
| Machine.CokePurchaseRegisters | vendingMachine/Model.java:123-142 | after a Coke purchase the registers are worth the new deposit less its remainder mod 5 |
| Machine.PepsiPurchaseRegisters | vendingMachine/Model.java:147-166 | after a Pepsi purchase the registers differ from the deposit by the Pepsi price minus the Coke price, less the dropped remainder, or are empty when the Coke price exceeds the deposit |
| Machine.PepsiBalancedIffSamePrice | vendingMachine/Model.java:149-150 | when the deposit covers the Coke price and the change from it is a whole number of nickels, a Pepsi purchase leaves registers and deposit in agreement iff the two prices are equal |
| Machine.PepsiPriceMismatchExample | vendingMachine/Model.java:147-166 | Coke 75, Pepsi 50, a dollar deposited: a Pepsi pays out one quarter while 50 cents stay deposited |
| Machine.CokePurchaseExample | vendingMachine/Model.java:123-143 | Coke 75, a dollar deposited: a Coke leaves one quarter in the registers and 25 cents deposited |
| Machine.DepositExample | vendingMachine/Model.java:103-118 | two nickels and a quarter in an empty machine make 35 cents |
| Machine.DepositCountsInitialCoins | vendingMachine/Model.java:76-118 | the same coins make 60 cents in a machine built holding a quarter |
| Machine.RunInvariants | vendingMachine/Model.java:52-171 | over any sequence of button presses the reserve never shrinks, the prices stay fixed, and each product's stock plus bought count is constant |
| Machine.CancelRestoresStock | vendingMachine/Model.java:89-98 | after any presses since construction, a cancel restores each product's initial stock and leaves at least the initial coins in the registers, in agreement with the deposit |
| VendingMachine.Model.constructor | vendingMachine/Model.java:71-85 | each register and reserve equals the given coin count, bought counts and deposit are 0, message "Hi!" |
| VendingMachine.Model.Cancel | vendingMachine/Model.java:89-101 | the fields end as Machine.Cancel says: registers equal the reserve, deposit equals its value, stock restored, bought counts 0, message "Hi!" |
| VendingMachine.Model.Deposit | vendingMachine/Model.java:103-118 | the fields end as Machine.Deposit says; the deposit equals the registers' value and grows by the coin's value; the reserve never shrinks |
| VendingMachine.Model.Buy | vendingMachine/Model.java:121-171 | the fields end as Machine.Buy says for the selected product; the reserve is unchanged |
| VendingMachine.Model.GetCokeLeft | vendingMachine/Model.java:180-182 | returns the Coke stock |
| VendingMachine.Model.GetPepsiLeft | vendingMachine/Model.java:183-185 | returns the Pepsi stock |
| VendingMachine.Model.GetMessage | vendingMachine/Model.java:177-179 | returns the text of the current message |
| VendingMachine.CancelTwice | vendingMachine/Model.java:89-101 | two cancels on the object leave it as one cancel does |

## Left out

- The view: `addView` and every display refresh are not modelled. The cancel message is set and then replaced by "Hi!" with nothing in between observing it.
- `getDeposited`, `getCokePrice`, `getPepsiPrice` and `toString` only format the counters as text; the counters themselves are modelled.
- Java's 32-bit `int`: all counters are unbounded integers, so overflow is not modelled.
- VendingMachine.Model.Buy: requires a non-empty product name; on an empty name the Java code throws an index exception, which is not modelled.
- Change.MakeChange: the loops count into local variables that the purchase then assigns to the three registers, rather than incrementing the fields directly; the two purchase branches share this one method.
