# Bank accounts: withdrawal policies and transfer

This project models the account hierarchy of a small C++ teaching program
(`main.cpp`). A base account has an account number, a holder name and a
balance. Its `deposit` adds to the balance with no check. Its `withdraw`
takes money out only when `balance >= amount`. Two subclasses override
`withdraw`:

- a savings account keeps at least 100.0 after any withdrawal;
- a current account may go down to `-overdraftLimit`.

Both limits are inclusive. Both subclasses carry a transfer quantity
`amt = 300`. The operator `current + savings` returns a copy of the current
account with `amt` deposited into it. It also subtracts `amt` directly from
the savings account's balance, so the savings minimum is never checked.
`main` runs a fixed script on one savings and one current account.

The model has two modules:

- `AccountPolicy` (`policy.dfy`) holds the rules as pure functions:
  - the per-kind floor and the dispatched withdrawal (`Withdrawal`);
  - the transfer's effect on the two balances (`TransferBalances`);
  - a model of a sequence of deposits and withdrawals (`Run`);
  - lemmas about all of these.
- `Accounts` (`accounts.dfy`) holds the objects. One class `Account` has
  constant identity fields, a constant `kind` tag and one mutable field
  `balance`. Its methods change `balance` in place and are specified by the
  functions of `AccountPolicy`. `Transfer` is the `+` operator and `Demo`
  is the script of `main`.

The three C++ classes become one Dafny class. Its `kind` field is `Basic`,
`Savings(interestRate, amt)` or `Current(overdraftLimit, amt)`, and
`Withdraw` matches on it where the C++ uses virtual dispatch. Each
withdrawal prints a message in the C++. Here `Withdraw` returns an `Outcome`
instead: `Successful`, `InsufficientFunds`, `MinimumBalanceNotMet` or
`OverdraftLimitExceeded`. Balances are `real`. The C++ uses `double`, and
`amt` is an `int` that is converted when it is added or subtracted
(`amt as real` here). All fields except `balance` are `const`.
`Deposit` and `Withdraw` may modify only `this`balance`. This states in the
frame that identity, kind, interest rate and overdraft limit never change.

## Model

| member | source | states |
|---|---|---|
| AccountPolicy.Withdrawal | main.cpp:25-83 | For every kind, a withdrawal succeeds iff `balance - amount` reaches the kind's floor: 0 for the base account (`balance >= amount`), 100.0 for savings, `-overdraftLimit` for current, boundary included. On success the new balance is `balance - amount` and is at or above the floor. On refusal the balance is unchanged and the kind's own rejection message is reported. |
| AccountPolicy.TransferBalances | main.cpp:87-92 | The transfer conserves money (new destination + new source = old destination + old source), and the destination gains exactly `amt`. |
| AccountPolicy.DepositThenWithdrawRestores | main.cpp:21-32 | From a balance at or above the floor, depositing a non-negative amount and then withdrawing it succeeds and gives back the original balance. |
| AccountPolicy.TransferBypassesSavingsFloor | main.cpp:87-92 | If `source - amt` is below 100.0, a savings withdrawal of `amt` would be refused, yet the transfer still takes `amt` and leaves the source below 100.0. |
| AccountPolicy.TransferFromNearFloorGoesNegative | main.cpp:89-90 | Concrete case: with a savings balance of 150, a withdrawal of 300 is refused with the balance unchanged, while the transfer leaves -150. |
| AccountPolicy.ApplyPreservesFloor | main.cpp:21-83 | A single withdrawal, or a deposit of a non-negative amount, keeps a balance that is at or above the kind's floor at or above it. |
| AccountPolicy.RunPreservesFloor | main.cpp:21-83 | The floor of each kind is an invariant. Starting at or above it, any sequence of withdrawals and non-negative deposits ends at or above it (proved by induction on the sequence). |
| AccountPolicy.RunOfDepositsAddsTotal | main.cpp:21-23 | Deposits are never refused. Any sequence of deposits raises the balance by exactly the sum of their amounts, for every kind. |
| AccountPolicy.NegativeDepositBreachesFloor | main.cpp:21-23 | `deposit` does not check its amount, so a negative deposit can take a savings account from 100 to below its minimum. |
| Accounts.Account.constructor | main.cpp:12-13 | A base account starts with the given number, holder and balance. |
| Accounts.Account.SavingsAccount | main.cpp:42-44 | A savings account starts with the given identity, balance and interest rate, and a transfer quantity of 300. |
| Accounts.Account.CurrentAccount | main.cpp:67-69 | A current account starts with the given identity, balance and overdraft limit, and a transfer quantity of 300. |
| Accounts.Account.Copy | main.cpp:88 | The copy has the same identity, kind and balance as the original. |
| Accounts.Account.Deposit | main.cpp:21-23 | The new balance is the old balance plus `amount`, with no guard. Only `balance` may change. |
| Accounts.Account.Withdraw | main.cpp:25-83 | The (outcome, new balance) pair is `Withdrawal(kind, old balance, amount)`. Success holds iff the old balance minus `amount` reaches the floor. A success subtracts `amount` and leaves the balance at or above the floor. A refusal leaves the balance unchanged. Only `balance` may change. |
| Accounts.Transfer | main.cpp:87-92 | The result is a fresh account with `lhs`'s identity, kind and overdraft limit, and balance `lhs.balance + amt`. The source's balance becomes `rhs.balance - amt` without any policy check. The total is conserved. `lhs` is not changed. |
| Accounts.Demo | main.cpp:100-122 | The script starts with savings 1000 and current 2000 (limit 500). It deposits 500 into savings, withdraws 1000 from current, then runs `current = current + savings`. The withdrawal succeeds, and the final balances are savings 1200 and current 1300. |

## Left out

- `displayDetails` and `operator<<` (main.cpp:15-19, 46-49, 71-74, 95-98): formatting to standard output, with nothing to state about the balances.
- The console messages of `withdraw`: each one is the `Outcome` value that `Withdraw` returns, not printed text.
- IEEE `double` rounding: balances and amounts are exact `real`s, and the `int`-to-`double` conversion of `amt` is `amt as real`.
- `interestRate`: stored in the savings kind but only displayed, never applied to the balance.
- Virtual dispatch: modelled as a match on the `kind` tag of a single class.
- `const_cast`: modelled as `Transfer` declaring `modifies rhs`balance`.
- The copy assignment `current = current + savings` (main.cpp:115): modelled by rebinding the variable `current` to the fresh result. The result has the same identity and kind, and nothing else refers to the old object. So the state that follows is the one the copy assignment gives.
- The virtual destructor (main.cpp:34): no resources are held.
