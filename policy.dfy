/**
 * Withdrawal and transfer rules of the three account kinds, as pure
 * functions on balances. The class in module Accounts is specified by them.
 *
 * Money is `real`: the program keeps balances as floating-point numbers,
 * and this model treats them as exact decimals.
 */
module AccountPolicy {

  /** Minimum balance a savings account must keep after a withdrawal. */
  const MinBalance: real := 100.0

  /** The fixed quantity a savings account hands over in a transfer. */
  const DefaultAmt: int := 300

  /** Which withdrawal policy an account follows (the program's subclasses). */
  datatype Kind =
    | Basic
    | Savings(interestRate: real, amt: int)
    | Current(overdraftLimit: real, amt: int)

  /** What a withdrawal reports: one value per message the program prints. */
  datatype Outcome =
    | Successful
    | InsufficientFunds
    | MinimumBalanceNotMet
    | OverdraftLimitExceeded

  /** The balance after a withdrawal together with what it reported. */
  datatype Step = Step(outcome: Outcome, balance: real)

  /** The lowest balance a withdrawal of the given kind may leave behind. */
  function Floor(kind: Kind): real
  {
    match kind
    case Basic => 0.0
    case Savings(_, _) => MinBalance
    case Current(limit, _) => -limit
  }

  /** The message a rejected withdrawal of the given kind reports. */
  function Rejection(kind: Kind): Outcome
  {
    match kind
    case Basic => InsufficientFunds
    case Savings(_, _) => MinimumBalanceNotMet
    case Current(_, _) => OverdraftLimitExceeded
  }

  /**
   * One withdrawal, dispatched on the kind as the overriding `withdraw`
   * members do. It succeeds exactly when the balance left over reaches the
   * kind's floor (boundary included); a rejected withdrawal leaves the
   * balance as it was.
   */
  function Withdrawal(kind: Kind, balance: real, amount: real): (r: Step)
    ensures r.outcome == Successful <==> balance - amount >= Floor(kind)
    ensures r.outcome == Successful ==> r.balance == balance - amount && r.balance >= Floor(kind)
    ensures r.outcome != Successful ==> r.outcome == Rejection(kind) && r.balance == balance
  {
    match kind
    case Basic =>
      if balance >= amount then Step(Successful, balance - amount)
      else Step(InsufficientFunds, balance)
    case Savings(_, _) =>
      if balance - amount >= MinBalance then Step(Successful, balance - amount)
      else Step(MinimumBalanceNotMet, balance)
    case Current(limit, _) =>
      if balance - amount >= -limit then Step(Successful, balance - amount)
      else Step(OverdraftLimitExceeded, balance)
  }

  /**
   * The transfer `current + savings`: the destination's copy gains `amt`
   * and the source loses `amt`, with no check against the source's floor.
   * Result: (new destination balance, new source balance).
   */
  function TransferBalances(destination: real, source: real, amt: int): (r: (real, real))
    ensures r.0 + r.1 == destination + source
    ensures r.0 - destination == amt as real
  {
    (destination + amt as real, source - amt as real)
  }

  /** A deposit followed by a withdrawal of the same non-negative amount
      succeeds and restores the balance, whenever the balance was at the floor
      or above. */
  lemma DepositThenWithdrawRestores(kind: Kind, balance: real, amount: real)
    requires amount >= 0.0 && balance >= Floor(kind)
    ensures Withdrawal(kind, balance + amount, amount) == Step(Successful, balance)
  {
  }

  /** The transfer takes `amt` out of a savings account even when a
      withdrawal of `amt` would have been refused for breaking the minimum
      balance, and then leaves the account below that minimum. */
  lemma TransferBypassesSavingsFloor(destination: real, source: real, rate: real, amt: int)
    requires source - amt as real < MinBalance
    ensures Withdrawal(Savings(rate, amt), source, amt as real).outcome == MinimumBalanceNotMet
    ensures TransferBalances(destination, source, amt).1 < MinBalance
  {
  }

  /** The concrete case: a savings balance of 150 ends at -150. */
  lemma TransferFromNearFloorGoesNegative()
    ensures Withdrawal(Savings(0.02, DefaultAmt), 150.0, DefaultAmt as real) == Step(MinimumBalanceNotMet, 150.0)
    ensures TransferBalances(0.0, 150.0, DefaultAmt).1 == -150.0
  {
  }

  /** A call on an account: a deposit or a withdrawal. */
  datatype Op = Deposit(amount: real) | Withdraw(amount: real)

  /** The balance after one call; a deposit is never refused. */
  function Apply(kind: Kind, balance: real, op: Op): real
  {
    match op
    case Deposit(a) => balance + a
    case Withdraw(a) => Withdrawal(kind, balance, a).balance
  }

  /** The balance after a sequence of calls, applied from first to last. */
  function Run(kind: Kind, balance: real, ops: seq<Op>): real
    decreases |ops|
  {
    if ops == [] then balance else Run(kind, Apply(kind, balance, ops[0]), ops[1..])
  }

  /** Every call in `ops` is a deposit. */
  predicate AllDeposits(ops: seq<Op>)
  {
    forall i :: 0 <= i < |ops| ==> ops[i].Deposit?
  }

  /** Every deposit in `ops` is of a non-negative amount. */
  predicate NonNegativeDeposits(ops: seq<Op>)
  {
    forall i :: 0 <= i < |ops| ==> (ops[i].Deposit? ==> ops[i].amount >= 0.0)
  }

  /** Sum of the amounts of the calls in `ops`. */
  function Total(ops: seq<Op>): real
    decreases |ops|
  {
    if ops == [] then 0.0 else ops[0].amount + Total(ops[1..])
  }

  /** One call keeps a balance at or above the kind's floor when any
      deposit it makes is non-negative. */
  lemma ApplyPreservesFloor(kind: Kind, balance: real, op: Op)
    requires balance >= Floor(kind)
    requires op.Deposit? ==> op.amount >= 0.0
    ensures Apply(kind, balance, op) >= Floor(kind)
  {
  }

  /**
   * The floor of each kind is an invariant of deposits and withdrawals: a
   * balance that starts at or above the floor stays there through any
   * sequence of withdrawals and non-negative deposits.
   */
  lemma {:induction false} RunPreservesFloor(kind: Kind, balance: real, ops: seq<Op>)
    requires balance >= Floor(kind)
    requires NonNegativeDeposits(ops)
    ensures Run(kind, balance, ops) >= Floor(kind)
    decreases |ops|
  {
    if ops != [] {
      ApplyPreservesFloor(kind, balance, ops[0]);
      var rest := ops[1..];
      assert NonNegativeDeposits(rest) by {
        forall i | 0 <= i < |rest| ensures rest[i].Deposit? ==> rest[i].amount >= 0.0 {
          assert rest[i] == ops[i + 1];
        }
      }
      RunPreservesFloor(kind, Apply(kind, balance, ops[0]), rest);
    }
  }

  /** Deposits are never refused: a run of deposits adds up all their
      amounts, whatever the kind and the starting balance. */
  lemma {:induction false} RunOfDepositsAddsTotal(kind: Kind, balance: real, ops: seq<Op>)
    requires AllDeposits(ops)
    ensures Run(kind, balance, ops) == balance + Total(ops)
    decreases |ops|
  {
    if ops != [] {
      var rest := ops[1..];
      assert AllDeposits(rest) by {
        forall i | 0 <= i < |rest| ensures rest[i].Deposit? {
          assert rest[i] == ops[i + 1];
        }
      }
      RunOfDepositsAddsTotal(kind, balance + ops[0].amount, rest);
    }
  }

  /** A deposit of a negative amount, which nothing refuses, can take a
      savings account below its minimum balance. */
  lemma NegativeDepositBreachesFloor()
    ensures Run(Savings(0.02, DefaultAmt), 100.0, [Deposit(-1.0)]) < MinBalance
  {
  }
}
