/**
 * The transaction strategies: the AccountTransaction template
 * (validate, then apply, then a no-op hook) with its two variants.
 */
module Transactions {
  import opened Wrappers
  import opened Domain

  const AmountMustBePositive := "Transaction amount must be positive"
  const InsufficientFundsMessage := "Insufficient funds for withdrawal."

  /** The exceptions a strategy or the factory can throw. */
  datatype Error = IllegalArgument(message: string) | UnsupportedOperation(message: string)

  /** A strategy bound to its account and amount. */
  datatype AccountTransaction =
    | DepositTransaction(account: Account, amount: int)
    | WithdrawalTransaction(account: Account, amount: int)

  /** The interface's default validate: it looks at the amount alone. */
  function DefaultValidate(amount: int): (r: Outcome<Error>)
    ensures r.Pass? <==> amount > 0
    ensures r.Fail? ==> r.error == IllegalArgument(AmountMustBePositive)
  {
    if amount <= 0 then Fail(IllegalArgument(AmountMustBePositive)) else Pass
  }

  /**
   * Deposit inherits the default; withdrawal runs the default first and only
   * then compares the balance with the amount.
   */
  function Validate(t: AccountTransaction): (r: Outcome<Error>)
    ensures r.Pass? <==> t.amount > 0 && (t.WithdrawalTransaction? ==> t.account.balance >= t.amount)
    ensures t.amount <= 0 ==> r == Fail(IllegalArgument(AmountMustBePositive))
    ensures t.amount > 0 && t.WithdrawalTransaction? && t.account.balance < t.amount ==>
              r == Fail(IllegalArgument(InsufficientFundsMessage))
    ensures r.Fail? ==> r.error.IllegalArgument?
  {
    match t
    case DepositTransaction(_, amount) => DefaultValidate(amount)
    case WithdrawalTransaction(account, amount) =>
      match DefaultValidate(amount)
      case Fail(e) => Fail(e)
      case Pass =>
        if account.balance < amount then Fail(IllegalArgument(InsufficientFundsMessage)) else Pass
  }

  /** The account after the strategy's balance rule; nothing but the balance changes. */
  function ApplyTransaction(t: AccountTransaction): (a: Account)
    ensures a.(balance := t.account.balance) == t.account
    ensures t.DepositTransaction? ==> a.balance - t.account.balance == t.amount
    ensures t.WithdrawalTransaction? ==> t.account.balance - a.balance == t.amount
  {
    match t
    case DepositTransaction(account, amount) => account.(balance := account.balance + amount)
    case WithdrawalTransaction(account, amount) => account.(balance := account.balance - amount)
  }

  /** The optional hook; it leaves the account as it is. */
  function PostTransaction(a: Account): Account
  {
    a
  }

  /**
   * The template method: a failed validation throws before the balance rule
   * runs, so the account comes back only when validation passed.
   */
  function Execute(t: AccountTransaction): (r: Result<Account, Error>)
    ensures r.Success? <==> Validate(t).Pass?
    ensures r.Failure? ==> r.error == Validate(t).error
    ensures r.Success? ==> r.value == ApplyTransaction(t)
    ensures r.Success? && t.account.balance >= 0 ==> r.value.balance >= 0
    ensures r.Success? && t.DepositTransaction? ==> r.value.balance > t.account.balance
  {
    match Validate(t)
    case Fail(e) => Failure(e)
    case Pass => Success(PostTransaction(ApplyTransaction(t)))
  }

  /** Withdrawing the whole balance is allowed and empties the account. */
  lemma WithdrawWholeBalance(a: Account)
    requires a.balance > 0
    ensures Execute(WithdrawalTransaction(a, a.balance)) == Success(a.(balance := 0))
  {
  }

  /** A non-positive withdrawal is reported as non-positive, never as insufficient funds. */
  lemma PositivityCheckedFirst(a: Account, amount: int)
    requires amount <= 0
    ensures Execute(WithdrawalTransaction(a, amount)) == Failure(IllegalArgument(AmountMustBePositive))
  {
  }

  /**
   * Withdrawal undoes deposit on a non-overdrawn account: the two strategies
   * are inverse balance rules.
   */
  lemma DepositThenWithdraw(a: Account, amount: int)
    requires a.balance >= 0 && amount > 0
    ensures Execute(DepositTransaction(a, amount)).Success?
    ensures Execute(WithdrawalTransaction(Execute(DepositTransaction(a, amount)).value, amount)) == Success(a)
  {
    var deposited := Execute(DepositTransaction(a, amount)).value;
    assert deposited.balance - amount == a.balance;
    assert ApplyTransaction(WithdrawalTransaction(deposited, amount)) == a;
  }
}
