/**
 * The unprotected `BankAccount` of the protection-proxy demo: a public
 * balance (a C# `decimal`, here an exact real) and a transfer that adds to
 * the recipient and subtracts from the sender with no check at all.
 */
module BankAccount {
  /** The two balances after moving `amount` from the sender to a distinct recipient. */
  function Moved(sender: real, recipient: real, amount: real): (r: (real, real))
    ensures r.0 + r.1 == sender + recipient
    ensures r.1 - recipient == amount == sender - r.0
  {
    (sender - amount, recipient + amount)
  }

  class BankAccount {
    var balance: real

    constructor(balance: real)
      ensures this.balance == balance
    {
      this.balance := balance;
    }

    /**
     * Adds to the recipient, then subtracts from this account.  Any amount
     * is accepted, negative or larger than the balance; a transfer to this
     * same account adds and subtracts the same amount.
     */
    method Transfer(amount: real, recipient: BankAccount)
      modifies this, recipient
      ensures recipient != this ==> (balance, recipient.balance) == Moved(old(balance), old(recipient.balance), amount)
      ensures recipient == this ==> balance == old(balance)
      ensures balance + (if recipient == this then 0.0 else recipient.balance)
        == old(balance) + (if recipient == this then 0.0 else old(recipient.balance))
    {
      recipient.balance := recipient.balance + amount;
      balance := balance - amount;
    }
  }

  /** Nothing stops an overdraft or a negative amount: both transfers go through. */
  lemma NoValidation(sender: real, recipient: real, amount: real)
    requires amount > sender || amount < 0.0
    ensures Moved(sender, recipient, amount).0 < 0.0 || Moved(sender, recipient, amount).1 < recipient
  {
  }

  /** The demo's test: a transfer to oneself changes nothing; the balance is then overwritten and sent away in full. */
  method BankScenario() returns (afterSelf: real, afterSet: real, mario: real, luigi: real)
    ensures afterSelf == 1000.0 && afterSet == 1000000000.0
    ensures mario == 0.0 && luigi == 1000000500.0
  {
    var m := new BankAccount(1000.0);
    var l := new BankAccount(500.0);
    m.Transfer(100.0, m);
    afterSelf := m.balance;
    m.balance := 1000000000.0;
    afterSet := m.balance;
    m.Transfer(1000000000.0, l);
    mario, luigi := m.balance, l.balance;
  }
}
