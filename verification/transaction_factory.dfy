/** Selection of the strategy from the request's transaction type. */
module TransactionFactory {
  import opened Wrappers
  import opened Domain
  import opened Transactions

  const UnsupportedTypeMessage := "Unsupported transaction type."

  /**
   * DEPOSIT and WITHDRAWAL build their strategy over the given account and
   * the request amount; every other type throws.
   */
  function CreateTransaction(account: Account, request: TransactionRequest): (r: Result<AccountTransaction, Error>)
    ensures request.kind == Deposit <==> r.Success? && r.value.DepositTransaction?
    ensures request.kind == Withdrawal <==> r.Success? && r.value.WithdrawalTransaction?
    ensures r.Failure? <==> request.kind.OtherType?
    ensures r.Failure? ==> r.error == UnsupportedOperation(UnsupportedTypeMessage)
    ensures r.Success? ==> r.value.account == account && r.value.amount == request.amount
  {
    match request.kind
    case Deposit => Success(DepositTransaction(account, request.amount))
    case Withdrawal => Success(WithdrawalTransaction(account, request.amount))
    case OtherType(_) => Failure(UnsupportedOperation(UnsupportedTypeMessage))
  }
}
