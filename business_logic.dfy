/**
 * The business logic layer: viewing the balance, crediting it, and debiting
 * it under overdraft protection. The rules are stated once as functions on a
 * balance and an amount; the `Operations` class carries them out against the
 * store and the terminal.
 */
module BusinessLogic {
  import opened Wrappers
  import opened Money
  import opened TerminalIo
  import opened DataLayer

  const InvalidAmountMessage: string := "Invalid amount. Please enter a valid positive number."
  const InsufficientFundsMessage: string := "Insufficient funds for this debit."

  function BalanceMessage(balance: int): string { "Current balance: " + FormatCents(balance) }
  const CreditedPrefix: string := "Amount credited. New balance: "
  const DebitedPrefix: string := "Amount debited. New balance: "

  function CreditedMessage(balance: int): string { CreditedPrefix + FormatCents(balance) }
  function DebitedMessage(balance: int): string { DebitedPrefix + FormatCents(balance) }

  /** An amount is accepted unless it is NaN or negative; zero is accepted. */
  predicate IsValidAmount(amount: Amount) { amount.Num? && amount.cents >= 0 }

  /** The balance an operation leaves and the line it prints. */
  datatype Effect = Effect(balance: int, message: string)

  /** Credit: reject an invalid amount, otherwise add it. */
  function CreditEffect(balance: int, amount: Amount): (e: Effect)
    ensures !IsValidAmount(amount) ==> e == Effect(balance, InvalidAmountMessage)
    ensures IsValidAmount(amount) ==> e.balance - balance == amount.cents && e.message == CreditedMessage(e.balance)
    ensures balance <= e.balance
    ensures e.balance == balance <==> !IsValidAmount(amount) || amount.cents == 0
    ensures e.message in {InvalidAmountMessage, CreditedMessage(e.balance)}
  {
    match amount
    case NaN => Effect(balance, InvalidAmountMessage)
    case Num(c) =>
      if c < 0 then Effect(balance, InvalidAmountMessage)
      else Effect(balance + c, CreditedMessage(balance + c))
  }

  /** Debit: reject an invalid amount, otherwise subtract it only if it does not exceed the balance. */
  function DebitEffect(balance: int, amount: Amount): (e: Effect)
    ensures !IsValidAmount(amount) ==> e == Effect(balance, InvalidAmountMessage)
    ensures IsValidAmount(amount) && amount.cents <= balance ==>
              balance - e.balance == amount.cents && e.message == DebitedMessage(e.balance)
    ensures IsValidAmount(amount) && amount.cents > balance ==> e == Effect(balance, InsufficientFundsMessage)
    ensures e.balance <= balance
    ensures e.balance >= 0 || e.balance == balance
    ensures e.message in {InvalidAmountMessage, InsufficientFundsMessage, DebitedMessage(e.balance)}
  {
    match amount
    case NaN => Effect(balance, InvalidAmountMessage)
    case Num(c) =>
      if c < 0 then Effect(balance, InvalidAmountMessage)
      else if balance >= c then Effect(balance - c, DebitedMessage(balance - c))
      else Effect(balance, InsufficientFundsMessage)
  }

  /** Neither operation can take a non-negative balance below zero. */
  lemma OperationsKeepBalanceNonNegative(balance: int, amount: Amount)
    requires balance >= 0
    ensures CreditEffect(balance, amount).balance >= 0
    ensures DebitEffect(balance, amount).balance >= 0
  {
  }

  /** Debiting exactly the balance succeeds and leaves 0.00; it is never "insufficient". */
  lemma DebitWholeBalance(balance: nat)
    ensures DebitEffect(balance, Num(balance)) == Effect(0, "Amount debited. New balance: 0.00")
  {
  }

  /**
   * A credit followed by a debit: the debit sees the credited balance, and
   * debiting what was credited gives the starting balance back.
   */
  lemma CreditThenDebit(balance: int, credit: nat, debit: nat, amount: Amount)
    requires balance >= 0
    ensures var b := balance + credit - debit;
            debit <= balance + credit ==>
              DebitEffect(CreditEffect(balance, Num(credit)).balance, Num(debit)) == Effect(b, DebitedMessage(b))
    ensures debit > balance + credit ==>
              DebitEffect(CreditEffect(balance, Num(credit)).balance, Num(debit))
              == Effect(balance + credit, InsufficientFundsMessage)
    ensures DebitEffect(CreditEffect(balance, amount).balance, amount).balance == balance
  {
  }

  /** A successful credit or debit prints a line from which the new balance reads back exactly. */
  lemma {:induction false} MessagesReportNewBalance(balance: int, amount: Amount)
    requires IsValidAmount(amount)
    ensures var e := CreditEffect(balance, amount);
            && e.message[..|CreditedPrefix|] == CreditedPrefix
            && ParseCents(e.message[|CreditedPrefix|..]) == Some(balance + amount.cents)
    ensures var e := DebitEffect(balance, amount);
            amount.cents <= balance ==>
              && e.message[..|DebitedPrefix|] == DebitedPrefix
              && ParseCents(e.message[|DebitedPrefix|..]) == Some(balance - amount.cents)
  {
    var c := CreditEffect(balance, amount);
    FormatRoundTrip(c.balance);
    assert c.message[|CreditedPrefix|..] == FormatCents(c.balance);
    if amount.cents <= balance {
      var d := DebitEffect(balance, amount);
      FormatRoundTrip(d.balance);
      assert d.message[|DebitedPrefix|..] == FormatCents(d.balance);
    }
  }

  class Operations {
    const dataProgram: DataProgram
    const terminal: Terminal

    constructor(dataProgram: DataProgram, terminal: Terminal)
      ensures this.dataProgram == dataProgram && this.terminal == terminal
    {
      this.dataProgram := dataProgram;
      this.terminal := terminal;
    }

    /** Prints the balance to two decimals; changes nothing else. */
    method ViewBalance()
      modifies terminal
      ensures terminal.output == old(terminal.output) + [BalanceMessage(dataProgram.storageBalance)]
      ensures terminal.input == old(terminal.input)
    {
      var balance := dataProgram.Read();
      terminal.Log(BalanceMessage(balance));
    }

    /**
     * Asks for an amount and applies `CreditEffect` to the store;
     * `answered` is false when no amount line ever comes.
     */
    method Credit() returns (answered: bool)
      modifies dataProgram, terminal
      ensures answered == (old(terminal.input) != [])
      ensures answered ==>
                var e := CreditEffect(old(dataProgram.storageBalance), old(terminal.input)[0].asAmount);
                && dataProgram.storageBalance == e.balance
                && terminal.output == old(terminal.output) + [e.message]
                && terminal.input == old(terminal.input)[1..]
      ensures !answered ==>
                && dataProgram.storageBalance == old(dataProgram.storageBalance)
                && terminal.output == old(terminal.output)
                && terminal.input == old(terminal.input)
    {
      var answer := terminal.Question();
      if answer.None? {
        return false;
      }
      answered := true;
      var amount := answer.value.asAmount;
      if amount.NaN? || amount.cents < 0 {
        terminal.Log(InvalidAmountMessage);
        return;
      }
      var currentBalance := dataProgram.Read();
      var newBalance := currentBalance + amount.cents;
      dataProgram.Write(newBalance);
      terminal.Log(CreditedMessage(newBalance));
    }

    /**
     * Asks for an amount and applies `DebitEffect` to the store;
     * `answered` is false when no amount line ever comes.
     */
    method Debit() returns (answered: bool)
      modifies dataProgram, terminal
      ensures answered == (old(terminal.input) != [])
      ensures answered ==>
                var e := DebitEffect(old(dataProgram.storageBalance), old(terminal.input)[0].asAmount);
                && dataProgram.storageBalance == e.balance
                && terminal.output == old(terminal.output) + [e.message]
                && terminal.input == old(terminal.input)[1..]
      ensures !answered ==>
                && dataProgram.storageBalance == old(dataProgram.storageBalance)
                && terminal.output == old(terminal.output)
                && terminal.input == old(terminal.input)
    {
      var answer := terminal.Question();
      if answer.None? {
        return false;
      }
      answered := true;
      var amount := answer.value.asAmount;
      if amount.NaN? || amount.cents < 0 {
        terminal.Log(InvalidAmountMessage);
        return;
      }
      var currentBalance := dataProgram.Read();
      if currentBalance >= amount.cents {
        var newBalance := currentBalance - amount.cents;
        dataProgram.Write(newBalance);
        terminal.Log(DebitedMessage(newBalance));
      } else {
        terminal.Log(InsufficientFundsMessage);
      }
    }
  }
}
