/**
 * The vending machine object: integer counters updated in place by the
 * deposit, buy and cancel buttons. Each method is proved to take the
 * machine's state exactly as the matching function of module Machine says.
 */
module VendingMachine {
  import opened Change
  import opened Machine

  class Model {
    var cokeLeft: int
    var pepsiLeft: int
    const cokePrice: int
    const pepsiPrice: int
    var cokeBought: int
    var pepsiBought: int
    var quartersLeft: int
    var dimesLeft: int
    var nickelsLeft: int
    var baseQuarters: int
    var baseDimes: int
    var baseNickels: int
    var deposited: int
    var message: Message

    /** The machine's fields as one value. */
    function Snapshot(): State
      reads this
    {
      State(cokeLeft, pepsiLeft, cokePrice, pepsiPrice, cokeBought, pepsiBought,
            Coins(quartersLeft, dimesLeft, nickelsLeft),
            Coins(baseQuarters, baseDimes, baseNickels),
            deposited, message)
    }

    constructor (quarters: int, dimes: int, nickels: int,
                 cokeLeft: int, pepsiLeft: int,
                 cokePrice: int, pepsiPrice: int)
      ensures Snapshot() == Initial(quarters, dimes, nickels, cokeLeft, pepsiLeft, cokePrice, pepsiPrice)
      ensures quartersLeft == baseQuarters == quarters
      ensures dimesLeft == baseDimes == dimes
      ensures nickelsLeft == baseNickels == nickels
      ensures cokeBought == 0 && pepsiBought == 0 && deposited == 0
      ensures message == Greeting
    {
      this.cokeLeft := cokeLeft;
      this.pepsiLeft := pepsiLeft;
      this.cokePrice := cokePrice;
      this.pepsiPrice := pepsiPrice;
      quartersLeft := quarters;
      baseQuarters := quarters;
      dimesLeft := dimes;
      baseDimes := dimes;
      nickelsLeft := nickels;
      baseNickels := nickels;
      cokeBought := 0;
      pepsiBought := 0;
      deposited := 0;  // the field's default
      message := Greeting;
    }

    /** Cancel: restock what was bought and return the registers and the
        deposited total to the reserve. */
    method Cancel()
      modifies this
      ensures Snapshot() == Machine.Cancel(old(Snapshot()))
      ensures quartersLeft == baseQuarters && dimesLeft == baseDimes && nickelsLeft == baseNickels
      ensures deposited == 25 * baseQuarters + 10 * baseDimes + 5 * baseNickels
      ensures cokeLeft == old(cokeLeft + cokeBought) && pepsiLeft == old(pepsiLeft + pepsiBought)
      ensures cokeBought == 0 && pepsiBought == 0
      ensures message == Greeting
    {
      // the refund is computed, then overwritten below
      deposited := deposited + cokeBought * cokePrice + pepsiBought * pepsiPrice;
      cokeLeft := cokeLeft + cokeBought;
      cokeBought := 0;
      pepsiLeft := pepsiLeft + pepsiBought;
      pepsiBought := 0;
      nickelsLeft := baseNickels;
      dimesLeft := baseDimes;
      quartersLeft := baseQuarters;
      deposited := quartersLeft * 25 + dimesLeft * 10 + nickelsLeft * 5;
      message := Cancelled;
      // the view shows the cancel message here
      message := Greeting;
    }

    /** Deposit a coin worth `amount` cents; only 5, 10 and 25 are accepted. */
    method Deposit(amount: int)
      modifies this
      ensures Snapshot() == Machine.Deposit(old(Snapshot()), amount)
      ensures deposited == 25 * quartersLeft + 10 * dimesLeft + 5 * nickelsLeft
      ensures amount == 5 || amount == 10 || amount == 25 ==>
                deposited == old(25 * quartersLeft + 10 * dimesLeft + 5 * nickelsLeft) + amount
      ensures baseQuarters >= old(baseQuarters) && baseDimes >= old(baseDimes)
      ensures baseNickels >= old(baseNickels)
    {
      if amount == 5 {
        nickelsLeft := nickelsLeft + 1;
        baseNickels := baseNickels + 1;
      } else if amount == 10 {
        dimesLeft := dimesLeft + 1;
        baseDimes := baseDimes + 1;
      } else if amount == 25 {
        quartersLeft := quartersLeft + 1;
        baseQuarters := baseQuarters + 1;
      }
      deposited := quartersLeft * 25 + dimesLeft * 10 + nickelsLeft * 5;
    }

    /** Buy the product whose name is `product`; the first character picks
        Coke ('C') or Pepsi ('P'), any other leaves the machine alone. */
    method Buy(product: string)
      requires |product| > 0
      modifies this
      ensures Snapshot() == Machine.Buy(old(Snapshot()), Select(product))
      ensures baseQuarters == old(baseQuarters) && baseDimes == old(baseDimes)
      ensures baseNickels == old(baseNickels)
    {
      if product[0] == 'C' {
        if cokeLeft >= 1 && deposited >= cokePrice {
          cokeLeft := cokeLeft - 1;
          var change := deposited - cokePrice;
          deposited := deposited - cokePrice;
          cokeBought := cokeBought + 1;
          quartersLeft, dimesLeft, nickelsLeft := MakeChange(change);
          message := BoughtCoke;
        } else {
          message := NotEnoughMoney;
        }
      } else if product[0] == 'P' {
        if pepsiLeft >= 1 && deposited >= pepsiPrice {
          pepsiLeft := pepsiLeft - 1;
          var change := deposited - cokePrice;  // the Coke price, as the machine does
          deposited := deposited - pepsiPrice;
          pepsiBought := pepsiBought + 1;
          quartersLeft, dimesLeft, nickelsLeft := MakeChange(change);
          message := BoughtPepsi;
        } else {
          message := NotEnoughMoney;
        }
      }
    }

    method GetCokeLeft() returns (n: int)
      ensures n == cokeLeft
    {
      n := cokeLeft;
    }

    method GetPepsiLeft() returns (n: int)
      ensures n == pepsiLeft
    {
      n := pepsiLeft;
    }

    method GetMessage() returns (text: string)
      ensures text == message.Text()
    {
      text := message.Text();
    }
  }

  /** Two cancels in a row leave every counter as the first one left it. */
  method CancelTwice(m: Model)
    modifies m
    ensures m.Snapshot() == Machine.Cancel(old(m.Snapshot()))
  {
    m.Cancel();
    m.Cancel();
    CancelIdempotent(old(m.Snapshot()));
  }
}
