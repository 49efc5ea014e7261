/**
 * The account objects of the program. One class stands for the base
 * account and its two subclasses; the `kind` tag picks the withdrawal
 * policy that the overriding `withdraw` members implement.
 */
module Accounts {
  import opened AccountPolicy

  class Account {
    /** Identity and kind are fixed at construction; only `balance` is
        ever written. */
    const accountNumber: string
    const accountHolder: string
    const kind: Kind
    var balance: real

    /** A base account, whose withdrawals need `balance >= amount`. */
    constructor (number: string, holder: string, initialBalance: real)
      ensures accountNumber == number && accountHolder == holder
      ensures kind == Basic && balance == initialBalance
    {
      accountNumber, accountHolder := number, holder;
      kind := Basic;
      balance := initialBalance;
    }

    /** A savings account; its transfer quantity starts at 300. */
    constructor SavingsAccount(number: string, holder: string, initialBalance: real, rate: real)
      ensures accountNumber == number && accountHolder == holder
      ensures kind == Savings(rate, DefaultAmt) && balance == initialBalance
    {
      accountNumber, accountHolder := number, holder;
      kind := Savings(rate, DefaultAmt);
      balance := initialBalance;
    }

    /** A current account with an overdraft limit; its transfer quantity
        starts at 300. */
    constructor CurrentAccount(number: string, holder: string, initialBalance: real, limit: real)
      ensures accountNumber == number && accountHolder == holder
      ensures kind == Current(limit, DefaultAmt) && balance == initialBalance
    {
      accountNumber, accountHolder := number, holder;
      kind := Current(limit, DefaultAmt);
      balance := initialBalance;
    }

    /** A member-wise copy of `other` (the implicit copy constructor). */
    constructor Copy(other: Account)
      ensures accountNumber == other.accountNumber && accountHolder == other.accountHolder
      ensures kind == other.kind && balance == other.balance
    {
      accountNumber, accountHolder := other.accountNumber, other.accountHolder;
      kind := other.kind;
      balance := other.balance;
    }

    /** Adds `amount` to the balance; there is no guard and no failure. */
    method Deposit(amount: real)
      modifies this`balance
      ensures balance == old(balance) + amount
    {
      balance := balance + amount;
    }

    /**
     * Takes `amount` out of the balance if the kind's policy allows it and
     * reports which message the program prints. The withdrawal succeeds
     * exactly when the balance left over reaches the kind's floor; a
     * refused withdrawal changes nothing.
     */
    method Withdraw(amount: real) returns (outcome: Outcome)
      modifies this`balance
      ensures Step(outcome, balance) == Withdrawal(kind, old(balance), amount)
      ensures outcome == Successful <==> old(balance) - amount >= Floor(kind)
      ensures outcome == Successful ==> balance == old(balance) - amount && balance >= Floor(kind)
      ensures outcome != Successful ==> outcome == Rejection(kind) && balance == old(balance)
    {
      match kind {
        case Basic =>
          if balance >= amount {
            balance := balance - amount;
            outcome := Successful;
          } else {
            outcome := InsufficientFunds;
          }
        case Savings(_, _) =>
          if balance - amount >= MinBalance {
            balance := balance - amount;
            outcome := Successful;
          } else {
            outcome := MinimumBalanceNotMet;
          }
        case Current(limit, _) =>
          if balance - amount >= -limit {
            balance := balance - amount;
            outcome := Successful;
          } else {
            outcome := OverdraftLimitExceeded;
          }
      }
    }
  }

  /**
   * The transfer `lhs + rhs` from a savings account into a current account.
   * It returns a fresh copy of `lhs` that has received `rhs`'s transfer
   * quantity, and takes that quantity straight out of `rhs`'s balance
   * without consulting the savings policy; `lhs` itself is left as it was.
   */
  method Transfer(lhs: Account, rhs: Account) returns (result: Account)
    requires lhs.kind.Current? && rhs.kind.Savings?
    modifies rhs`balance
    ensures fresh(result)
    ensures result.accountNumber == lhs.accountNumber && result.accountHolder == lhs.accountHolder
    ensures result.kind == lhs.kind
    ensures (result.balance, rhs.balance) == TransferBalances(old(lhs.balance), old(rhs.balance), rhs.kind.amt)
    ensures result.balance == old(lhs.balance) + rhs.kind.amt as real
    ensures rhs.balance == old(rhs.balance) - rhs.kind.amt as real
    ensures result.balance + rhs.balance == old(lhs.balance) + old(rhs.balance)
    ensures lhs.balance == old(lhs.balance)
  {
    result := new Account.Copy(lhs);
    result.Deposit(rhs.kind.amt as real);
    rhs.balance := rhs.balance - rhs.kind.amt as real;
  }

  /**
   * The program's fixed script: open a savings account with 1000 and a
   * current account with 2000 and an overdraft limit of 500, deposit 500
   * into savings, withdraw 1000 from current, then `current = current +
   * savings`. Returns the final balances and what the withdrawal reported.
   */
  method Demo() returns (savingsBalance: real, currentBalance: real, withdrawal: Outcome)
    ensures withdrawal == Successful
    ensures savingsBalance == 1200.0 && currentBalance == 1300.0
  {
    var savings := new Account.SavingsAccount("S123", "John Doe", 1000.0, 0.02);
    var current := new Account.CurrentAccount("C456", "Jane Doe", 2000.0, 500.0);
    savings.Deposit(500.0);
    withdrawal := current.Withdraw(1000.0);
    current := Transfer(current, savings);
    savingsBalance, currentBalance := savings.balance, current.balance;
  }
}
