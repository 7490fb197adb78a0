/**
 * The vending machine's state as a value, and what each button press does
 * to it. The class in module VendingMachine updates the same fields in
 * place; each of its methods is proved to agree with the function here.
 */
module Machine {
  import opened Change

  /** The status messages the machine shows. `Cancelled` is visible only
      while the display refreshes during a cancel. */
  datatype Message = Greeting | Cancelled | BoughtCoke | BoughtPepsi | NotEnoughMoney {

    /** The text shown for the message. */
    function Text(): string {
      match this
      case Greeting => "Hi!"
      case Cancelled => "Your pending orders have been cancelled and your money has been returned."
      case BoughtCoke => "You bought a coke!"
      case BoughtPepsi => "You bought a pepsi!"
      case NotEnoughMoney => "You do not have enough money deposited!"
    }
  }

  /** Which product a button names: the machine looks only at the first
      character of the product's name. */
  datatype Selector = Coke | Pepsi | Other

  function Select(product: string): (sel: Selector)
    requires |product| > 0
    ensures sel == Coke <==> product[0] == 'C'
    ensures sel == Pepsi <==> product[0] == 'P'
  {
    if product[0] == 'C' then Coke
    else if product[0] == 'P' then Pepsi
    else Other
  }

  /** Everything the machine remembers. `registers` are the coins it holds
      for the current customer; `base` is its reserve, which grows with every
      coin deposited and to which the registers return on a cancel. */
  datatype State = State(
    cokeLeft: int, pepsiLeft: int,
    cokePrice: int, pepsiPrice: int,
    cokeBought: int, pepsiBought: int,
    registers: Coins, base: Coins,
    deposited: int,
    message: Message)

  /** The deposited total agrees with the coins in the registers. */
  predicate Balanced(s: State) {
    s.deposited == s.registers.Cents()
  }

  /** The reserve never shrinks from `s` to `t`. */
  predicate BaseGrows(s: State, t: State) {
    && s.base.quarters <= t.base.quarters
    && s.base.dimes <= t.base.dimes
    && s.base.nickels <= t.base.nickels
  }

  /** The prices are the same in `s` and `t`, and so is each product's total
      stock, counting what was bought and may still be handed back. */
  predicate SameGoods(s: State, t: State) {
    && s.cokePrice == t.cokePrice && s.pepsiPrice == t.pepsiPrice
    && s.cokeLeft + s.cokeBought == t.cokeLeft + t.cokeBought
    && s.pepsiLeft + s.pepsiBought == t.pepsiLeft + t.pepsiBought
  }

  /** A freshly built machine. The deposited total starts at 0 even when
      the registers hold coins. */
  function Initial(quarters: int, dimes: int, nickels: int,
                   cokeLeft: int, pepsiLeft: int,
                   cokePrice: int, pepsiPrice: int): (s: State)
    ensures s.registers == s.base == Coins(quarters, dimes, nickels)
    ensures s.cokeBought == 0 && s.pepsiBought == 0
    ensures s.cokeLeft == cokeLeft && s.pepsiLeft == pepsiLeft
    ensures s.cokePrice == cokePrice && s.pepsiPrice == pepsiPrice
    ensures s.deposited == 0 && s.message == Greeting
    ensures Balanced(s) <==> 25 * quarters + 10 * dimes + 5 * nickels == 0
  {
    var coins := Coins(quarters, dimes, nickels);
    State(cokeLeft, pepsiLeft, cokePrice, pepsiPrice, 0, 0, coins, coins, 0, Greeting)
  }

  /** Inserting a coin worth `amount` cents. */
  function Deposit(s: State, amount: int): (r: State)
    ensures Balanced(r)
    ensures amount == 5 || amount == 10 || amount == 25 ==>
              && r.deposited == s.registers.Cents() + amount
              && r.registers.Count() == s.registers.Count() + 1
              && r.base.Cents() == s.base.Cents() + amount
              && r.base.Count() == s.base.Count() + 1
    ensures amount == 5 ==>
              r.registers == s.registers.(nickels := s.registers.nickels + 1)
              && r.base == s.base.(nickels := s.base.nickels + 1)
    ensures amount == 10 ==>
              r.registers == s.registers.(dimes := s.registers.dimes + 1)
              && r.base == s.base.(dimes := s.base.dimes + 1)
    ensures amount == 25 ==>
              r.registers == s.registers.(quarters := s.registers.quarters + 1)
              && r.base == s.base.(quarters := s.base.quarters + 1)
    ensures amount != 5 && amount != 10 && amount != 25 ==>
              r == s.(deposited := s.registers.Cents())
    ensures && r.cokeLeft == s.cokeLeft && r.pepsiLeft == s.pepsiLeft
            && r.cokeBought == s.cokeBought && r.pepsiBought == s.pepsiBought
            && r.cokePrice == s.cokePrice && r.pepsiPrice == s.pepsiPrice
            && r.message == s.message
  {
    var registers := AddCoin(s.registers, amount);
    s.(registers := registers, base := AddCoin(s.base, amount), deposited := registers.Cents())
  }

  /** Pressing the button of product `sel`. A Pepsi purchase takes the
      Pepsi price off the deposited total but pays out change computed from
      the Coke price, as the machine does. */
  function Buy(s: State, sel: Selector): (r: State)
    ensures sel == Other ==> r == s
    ensures r.base == s.base && r.cokePrice == s.cokePrice && r.pepsiPrice == s.pepsiPrice
    ensures sel == Coke ==>
              (r.message == BoughtCoke <==> s.cokeLeft >= 1 && s.deposited >= s.cokePrice)
    ensures sel == Pepsi ==>
              (r.message == BoughtPepsi <==> s.pepsiLeft >= 1 && s.deposited >= s.pepsiPrice)
    ensures sel == Coke && !(s.cokeLeft >= 1 && s.deposited >= s.cokePrice) ==>
              r == s.(message := NotEnoughMoney)
    ensures sel == Pepsi && !(s.pepsiLeft >= 1 && s.deposited >= s.pepsiPrice) ==>
              r == s.(message := NotEnoughMoney)
    ensures sel == Coke && r.message == BoughtCoke ==>
              && r.cokeLeft == s.cokeLeft - 1 && r.cokeBought == s.cokeBought + 1
              && r.deposited == s.deposited - s.cokePrice
              && r.registers == Greedy(s.deposited - s.cokePrice)
              && r.pepsiLeft == s.pepsiLeft && r.pepsiBought == s.pepsiBought
    ensures sel == Pepsi && r.message == BoughtPepsi ==>
              && r.pepsiLeft == s.pepsiLeft - 1 && r.pepsiBought == s.pepsiBought + 1
              && r.deposited == s.deposited - s.pepsiPrice
              && r.registers == Greedy(s.deposited - s.cokePrice)
              && r.cokeLeft == s.cokeLeft && r.cokeBought == s.cokeBought
  {
    match sel
    case Coke =>
      if s.cokeLeft >= 1 && s.deposited >= s.cokePrice then
        s.(cokeLeft := s.cokeLeft - 1, cokeBought := s.cokeBought + 1,
           deposited := s.deposited - s.cokePrice,
           registers := Greedy(s.deposited - s.cokePrice),
           message := BoughtCoke)
      else s.(message := NotEnoughMoney)
    case Pepsi =>
      if s.pepsiLeft >= 1 && s.deposited >= s.pepsiPrice then
        s.(pepsiLeft := s.pepsiLeft - 1, pepsiBought := s.pepsiBought + 1,
           deposited := s.deposited - s.pepsiPrice,
           registers := Greedy(s.deposited - s.cokePrice),
           message := BoughtPepsi)
      else s.(message := NotEnoughMoney)
    case Other => s
  }

  /** Pressing cancel: what was bought goes back into stock, and the
      registers and deposited total return to the reserve. The refund of the
      purchases' prices that the machine adds to the deposited total is
      overwritten at once, so it leaves no trace here. */
  function Cancel(s: State): (r: State)
    ensures r.registers == r.base == s.base && Balanced(r)
    ensures r.cokeLeft == s.cokeLeft + s.cokeBought && r.cokeBought == 0
    ensures r.pepsiLeft == s.pepsiLeft + s.pepsiBought && r.pepsiBought == 0
    ensures r.cokePrice == s.cokePrice && r.pepsiPrice == s.pepsiPrice
    ensures r.message == Greeting
  {
    s.(cokeLeft := s.cokeLeft + s.cokeBought, cokeBought := 0,
       pepsiLeft := s.pepsiLeft + s.pepsiBought, pepsiBought := 0,
       registers := s.base, deposited := s.base.Cents(),
       message := Greeting)
  }

  /** A button press. */
  datatype Action = InsertCoin(amount: int) | Press(product: Selector) | CancelOrders

  function Step(s: State, a: Action): State {
    match a
    case InsertCoin(amount) => Deposit(s, amount)
    case Press(product) => Buy(s, product)
    case CancelOrders => Cancel(s)
  }

  /** The state after a sequence of button presses. */
  function Run(s: State, actions: seq<Action>): State
    decreases |actions|
  {
    if actions == [] then s else Run(Step(s, actions[0]), actions[1..])
  }

  /** A second cancel right after a first changes nothing. */
  lemma CancelIdempotent(s: State)
    ensures Cancel(Cancel(s)) == Cancel(s)
  {
  }

  /** What a cancel leaves depends only on the reserve, the prices and each
      product's total stock: the deposited total, the registers and the
      purchases made before it are all forgotten. */
  lemma CancelForgetsHistory(s: State, t: State)
    requires s.base == t.base && SameGoods(s, t)
    ensures Cancel(s) == Cancel(t)
  {
  }

  /** After a Coke purchase the registers hold the new deposited total, less
      its sub-nickel remainder, whatever they held before. */
  lemma CokePurchaseRegisters(s: State)
    requires Buy(s, Coke).message == BoughtCoke
    ensures var r := Buy(s, Coke);
            r.deposited >= 0 && r.registers.Cents() == r.deposited - r.deposited % 5
  {
    GreedyValue(s.deposited - s.cokePrice);
  }

  /** After a Pepsi purchase the registers are off from the deposited total
      by the difference of the two prices (less the dropped remainder of the
      change), or are empty when the Coke price exceeds the deposit. */
  lemma PepsiPurchaseRegisters(s: State)
    requires Buy(s, Pepsi).message == BoughtPepsi
    ensures var r := Buy(s, Pepsi);
            var change := s.deposited - s.cokePrice;
            && (change >= 0 ==>
                  r.registers.Cents() == r.deposited + (s.pepsiPrice - s.cokePrice) - change % 5)
            && (change < 0 ==> r.registers == Coins(0, 0, 0))
  {
    GreedyValue(s.deposited - s.cokePrice);
  }

  /** When the deposit covers the Coke price and amounts are whole nickels, a
      Pepsi purchase keeps the registers in agreement with the deposited
      total exactly when both products cost the same. */
  lemma PepsiBalancedIffSamePrice(s: State)
    requires Buy(s, Pepsi).message == BoughtPepsi
    requires s.deposited >= s.cokePrice && (s.deposited - s.cokePrice) % 5 == 0
    ensures Balanced(Buy(s, Pepsi)) <==> s.cokePrice == s.pepsiPrice
  {
    PepsiPurchaseRegisters(s);
  }

  /** A concrete case of the price mix-up: with Coke at 75 and Pepsi at 50
      cents, a Pepsi bought with a dollar deposited pays out one quarter while
      50 cents stay deposited. */
  lemma PepsiPriceMismatchExample(s: State)
    requires s.cokePrice == 75 && s.pepsiPrice == 50 && s.pepsiLeft >= 1
    requires s.deposited == 100
    ensures var r := Buy(s, Pepsi);
            && r.message == BoughtPepsi
            && r.registers == Coins(1, 0, 0) && r.deposited == 50
            && !Balanced(r)
  {
    assert Greedy(25) == Coins(1, 0, 0);
  }

  /** A concrete case: with Coke at 75 cents, a Coke bought with a dollar
      deposited leaves one quarter in the registers and 25 cents deposited. */
  lemma CokePurchaseExample(s: State)
    requires s.cokePrice == 75 && s.cokeLeft >= 1 && s.deposited == 100
    ensures var r := Buy(s, Coke);
            && r.message == BoughtCoke
            && r.registers == Coins(1, 0, 0) && r.deposited == 25
            && r.cokeLeft == s.cokeLeft - 1 && r.cokeBought == s.cokeBought + 1
  {
    assert Greedy(25) == Coins(1, 0, 0);
  }

  /** Two nickels and a quarter deposited in a machine built without coins
      make 35 cents. */
  lemma DepositExample()
    ensures Deposit(Deposit(Deposit(Initial(0, 0, 0, 1, 1, 75, 50), 5), 5), 25).deposited == 35
  {
  }

  /** The deposited total counts the coins the machine was built with: the
      same two nickels and a quarter make 60 cents in a machine built holding
      a quarter. */
  lemma DepositCountsInitialCoins()
    ensures Deposit(Deposit(Deposit(Initial(1, 0, 0, 1, 1, 75, 50), 5), 5), 25).deposited == 60
  {
  }

  /** Over any sequence of button presses the reserve never shrinks, the
      prices never change, and each product's stock plus its bought count
      stays the same. */
  lemma {:induction false} RunInvariants(s: State, actions: seq<Action>)
    ensures BaseGrows(s, Run(s, actions)) && SameGoods(s, Run(s, actions))
    decreases |actions|
  {
    if actions != [] {
      var t := Step(s, actions[0]);
      assert BaseGrows(s, t) && SameGoods(s, t);
      RunInvariants(t, actions[1..]);
    }
  }

  /** Whatever was pressed since the machine was built, a cancel puts every
      product back to its initial stock and leaves the registers holding at
      least the coins the machine started with. */
  lemma CancelRestoresStock(quarters: int, dimes: int, nickels: int,
                            cokeLeft: int, pepsiLeft: int,
                            cokePrice: int, pepsiPrice: int,
                            actions: seq<Action>)
    ensures var r := Cancel(Run(Initial(quarters, dimes, nickels, cokeLeft, pepsiLeft, cokePrice, pepsiPrice), actions));
            && r.cokeLeft == cokeLeft && r.pepsiLeft == pepsiLeft
            && r.cokeBought == 0 && r.pepsiBought == 0
            && r.registers.quarters >= quarters && r.registers.dimes >= dimes
            && r.registers.nickels >= nickels
            && Balanced(r)
  {
    RunInvariants(Initial(quarters, dimes, nickels, cokeLeft, pepsiLeft, cokePrice, pepsiPrice), actions);
  }
}
