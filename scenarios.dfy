/** Client code that relies only on the contracts of module Accounts. */
module Scenarios {
  import opened Amounts
  import opened Policy
  import opened Histories
  import opened Accounts

  /** -5.00 on an empty account is an invalid amount, not insufficient funds. */
  method InvalidBeforeInsufficient(now: string) {
    var ana := new Client("Ana", "01-01-1990", "111", "Rua A, 1 - Centro - Natal/RN");
    var conta := OpenCheckingAccount(ana, 1);
    var r := ana.Perform(conta, Withdrawal(-500), now);
    assert r == Rejected(InvalidAmount);
    assert conta.history.Render() == EmptyMessage;
  }

  /** Only the owner may move the account; anyone else leaves it as it was. */
  method ForeignAccountUntouched(now: string) {
    var ana := new Client("Ana", "01-01-1990", "111", "Rua A, 1 - Centro - Natal/RN");
    var bia := new Client("Bia", "02-02-1992", "222", "Rua B, 2 - Centro - Natal/RN");
    var conta := OpenAccount(ana, 1);
    var r := bia.Perform(conta, Deposit(100000), now);
    assert r == Rejected(NotOwner) && conta.balance == 0 && conta.history.entries == [];
  }

  lemma HundredText()
    ensures Deposit(10000).Description() == "Depósito: R$ 100.00"
  {
    assert NatText(100) == "100";
    assert FormatCents(10000) == "100.00";
  }

  /** A deposit of 100.00 leaves exactly one line, which shows "100.00". */
  method DepositIsRecorded(now: string) {
    var ana := new Client("Ana", "01-01-1990", "111", "Rua A, 1 - Centro - Natal/RN");
    var conta := OpenAccount(ana, 1);
    var r := ana.Perform(conta, Deposit(10000), now);
    assert r == Accepted && conta.balance == 10000;
    HundredText();
    assert conta.history.entries == [now + " - " + "Depósito: R$ 100.00"];
    assert conta.history.Render() != EmptyMessage;
  }

  /** Balance 1000.00 and ceiling 500.00: 600.00 is over the limit, 500.00 goes through. */
  method CeilingPerWithdrawal(now: string) {
    var ana := new Client("Ana", "01-01-1990", "111", "Rua A, 1 - Centro - Natal/RN");
    var conta := OpenCheckingAccount(ana, 1);
    var r := ana.Perform(conta, Deposit(100000), now);
    r := ana.Perform(conta, Withdrawal(60000), now);
    assert r == Rejected(OverLimit) && conta.balance == 100000;
    r := ana.Perform(conta, Withdrawal(50000), now);
    assert r == Accepted && conta.balance == 50000 && conta.withdrawals == 1;
  }

  /** After three withdrawals the fourth is refused although the balance covers it. */
  method CountCeiling(now: string) {
    var ana := new Client("Ana", "01-01-1990", "111", "Rua A, 1 - Centro - Natal/RN");
    var conta := OpenCheckingAccount(ana, 1);
    var r := ana.Perform(conta, Deposit(100000), now);
    r := ana.Perform(conta, Withdrawal(100), now);
    r := ana.Perform(conta, Withdrawal(100), now);
    r := ana.Perform(conta, Withdrawal(100), now);
    assert conta.withdrawals == 3 && conta.balance == 99700;
    r := ana.Perform(conta, Withdrawal(100), now);
    assert r == Rejected(TooManyWithdrawals) && conta.balance == 99700;
    assert |conta.history.entries| == 4;
  }
}
