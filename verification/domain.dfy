/**
 * Entities and request/response records of the bank.
 * Money is integer cents: the balance column has scale 2, so every amount
 * the bank stores is a whole number of cents.
 */
module Domain {

  /** A random UUID, abstracted to a natural number. */
  type AccountId = nat

  /** A bank account; only `balance` is ever changed after creation. */
  datatype Account = Account(
    id: AccountId,
    iban: string,
    firstName: string,
    address: string,
    email: string,
    balance: int)

  /** DEPOSIT, WITHDRAWAL, or any other non-null constant of the type. */
  datatype TransactionType = Deposit | Withdrawal | OtherType(name: string)

  datatype TransactionRequest = TransactionRequest(iban: string, kind: TransactionType, amount: int)

  datatype TransactionResponse = TransactionResponse(iban: string, newBalance: int, description: string)

  datatype CreateAccountRequest = CreateAccountRequest(firstName: string, address: string, email: string)

  datatype CreateAccountResponse = CreateAccountResponse(id: AccountId, iban: string, address: string)

  datatype FetchBalanceResponse = FetchBalanceResponse(iban: string, balance: int)
}
