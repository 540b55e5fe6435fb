# Cooperative bank: transaction core in Dafny

A model of the transaction decision logic of the cooperative bank demo
service, with the two small pure services beside it:

- **Transaction strategies** (`transactions.dfy`, `transaction_factory.dfy`):
  the `AccountTransaction` template (validate, apply, no-op hook), the
  deposit and withdrawal rules, and the factory that picks one from the
  request's transaction type.
- **processTransaction** (`transaction_service.dfy`): amount validation,
  the locked lookup, the strategy, the save, the sentinel responses, the
  declarative retry policy (three attempts, waits of 1000 ms and 2000 ms)
  and the recover fallback. The retry is a recursive function over a given
  sequence of per-attempt lookup outcomes
  (`Found | NotFound | LockFailure | DatabaseError`) and returns the
  response, the number of lookups, the accounts saved and the waits taken.
  `TransactionOutcomes` gives an outcome table written without the
  recursion and proves the two agree for every input.
- **Store-level runs** (`bank.dfy`): requests served one after another
  against an account store (a map keyed by IBAN). Balances never become
  negative, and each final balance is the opening balance plus the
  successful deposits minus the successful withdrawals.
- **AccountService** (`account_service.dfy`): account creation (balance 0,
  IBAN from the generator, details from the request) and balance enquiry.
- **IbanService** (`iban_service.dfy`): country code, check digits, bank code,
  then `accountNumberLength` decimal digits. The random digits are an input.

Modelling choices:

- Money is integer cents, matching the scale-2 balance column. The
  response's failure balance of -1 is `FailureSentinel = -100` cents.
- The declaration of `TransactionType` is not part of this model.
  `OtherType` is a non-null constant other than DEPOSIT and WITHDRAWAL; a
  null type is not modelled (see "## Left out").
- `LockFailure` stands for a lock exception that leaves the `try` block, as
  the JPA `PessimisticLockException` does. Spring's
  `CannotAcquireLockException` is a `DataAccessException`. The `catch` at
  TransactionService.java:51 therefore swallows it as a database error, and
  it is never retried although it is listed in `retryFor`. The model
  classifies it as `DatabaseError`.
- An unsupported type throws `UnsupportedOperationException` from inside
  the attempt. Neither `catch` handles it, and it is not in `retryFor`.
  Under Spring Retry's stateless semantics it is not retried, and the
  `@Recover` method, which accepts any `Exception`, answers for it. The
  model therefore gives the recover response after one lookup.
- The service never writes a history entry (TransactionService.java:66-77),
  and the model writes none.
- Insufficient funds is caught as an `IllegalArgumentException` and gets the
  response "Invalid transaction amount", the same as a non-positive amount.
- The repository is a map. Its locked lookup is the per-attempt outcome
  input. The random UUID and the repository's answer to `save` are inputs
  of `CreateAccount`.

## Model

| member | source | states |
|---|---|---|
| Transactions.DefaultValidate | src/main/java/com/cobank/service/transaction/AccountTransaction.java:18-22 | the default check passes exactly for a positive amount; otherwise it throws the "must be positive" error; it sees only the amount |
| Transactions.Validate | src/main/java/com/cobank/service/transaction/WithdrawalTransaction.java:15-21 | validation passes iff the amount is positive and, for a withdrawal, the balance covers it; a non-positive amount always reports positivity; an uncovered positive withdrawal reports insufficient funds |
| Transactions.ApplyTransaction | src/main/java/com/cobank/service/transaction/WithdrawalTransaction.java:23-26 | a deposit raises the balance by the amount, a withdrawal lowers it by the amount, and no other account field changes |
| Transactions.Execute | src/main/java/com/cobank/service/transaction/AccountTransaction.java:12-16 | the strategy succeeds iff validation passes; a failure carries the validation error and changes nothing; on success the hook adds nothing to the apply step, a non-negative balance stays non-negative and a deposit strictly increases it |
| Transactions.WithdrawWholeBalance | src/main/java/com/cobank/service/transaction/WithdrawalTransaction.java:18 | withdrawing exactly the balance is allowed and leaves balance 0 |
| Transactions.PositivityCheckedFirst | src/main/java/com/cobank/service/transaction/WithdrawalTransaction.java:16-20 | a non-positive withdrawal fails with the positivity message whatever the balance |
| Transactions.DepositThenWithdraw | src/main/java/com/cobank/service/transaction/DepositTransaction.java:15-18 | on a non-negative balance a withdrawal of the same amount undoes a deposit exactly |
| TransactionFactory.CreateTransaction | src/main/java/com/cobank/service/transaction/TransactionFactory.java:12-21 | DEPOSIT gives a deposit and WITHDRAWAL a withdrawal over the same account and the unchanged request amount; every other non-null type fails with "Unsupported transaction type." |
| TransactionService.ValidateRequestAmount | src/main/java/com/cobank/service/transaction/TransactionService.java:59-64 | the request passes iff its amount is positive; otherwise an illegal-argument error |
| TransactionService.ExecuteRequest | src/main/java/com/cobank/service/transaction/TransactionService.java:66-77 | the saved account differs from the looked-up one only in its balance, shifted by the signed amount; the response carries that balance and the success message; an unsupported type or a failed validation saves nothing |
| TransactionService.RunAttempt | src/main/java/com/cobank/service/transaction/TransactionService.java:39-57 | a non-positive amount answers "Invalid transaction amount" with no lookup; a save happens only for a found account, with the success response; exactly the lock failures of a positive request escape as retryable |
| TransactionService.RecoverFromLockFailure | src/main/java/com/cobank/service/transaction/TransactionService.java:79-90 | the fallback echoes the IBAN with the failure sentinel |
| TransactionService.Retry | src/main/java/com/cobank/service/transaction/TransactionService.java:33-37 | from any attempt there are at most the remaining attempts' lookups, at most one save, one wait fewer than lookups, each wait the backoff for its attempt, and a save iff the response is the success message |
| TransactionService.ProcessTransaction | src/main/java/com/cobank/service/transaction/TransactionService.java:33-50 | an invalid amount gives the sentinel with no lookup; at most 3 lookups and 1 save; the waits follow the backoff schedule; a save happens iff the call reports success |
| TransactionService.BackoffDelay | src/main/java/com/cobank/service/transaction/TransactionService.java:36 | every wait is at least the 1000 ms initial delay |
| TransactionOutcomes.BackoffDoubles | src/main/java/com/cobank/service/transaction/TransactionService.java:36 | each backoff wait is twice the previous one |
| TransactionOutcomes.RetryReachesDecidingAttempt | src/main/java/com/cobank/service/transaction/TransactionService.java:33-37 | lock failures on attempts before the deciding one are retried, each adding a lookup and a wait, and the response and saves are those of the deciding lookup |
| TransactionOutcomes.ProcessTransactionOutcome | src/main/java/com/cobank/service/transaction/TransactionService.java:33-90 | for every positive request, after k lock failures the call makes k+1 lookups, takes the first k backoff waits, and answers as the outcome table says for the deciding lookup |
| TransactionOutcomes.SuccessfulTransaction | src/main/java/com/cobank/service/transaction/TransactionService.java:66-77 | a deposit or a covered withdrawal on the first lookup answers the shifted balance with the success message, one lookup, one save |
| TransactionOutcomes.UnknownIban | src/main/java/com/cobank/service/transaction/TransactionService.java:44-45 | an unknown IBAN gives an empty result after one lookup with no save |
| TransactionOutcomes.InsufficientFunds | src/main/java/com/cobank/service/transaction/TransactionService.java:47-50 | an uncovered withdrawal answers "Invalid transaction amount" with the sentinel and saves nothing |
| TransactionOutcomes.DatabaseErrorNotRetried | src/main/java/com/cobank/service/transaction/TransactionService.java:51-56 | a data-access error answers the database message after exactly one lookup, with no retry and no save |
| TransactionOutcomes.RetryThenSuccess | src/test/java/com/cobank/service/transaction/TransactionServiceTest.java:102-115 | one lock failure then the account: two lookups, one save, the deposited balance, one 1000 ms wait |
| TransactionOutcomes.RetriesExhausted | src/test/java/com/cobank/service/transaction/TransactionServiceTest.java:117-130 | three lock failures: the recover message with the sentinel, three lookups, no save, waits 1000 and 2000 ms |
| TransactionOutcomes.UnsupportedTypeRecovered | src/main/java/com/cobank/service/transaction/TransactionFactory.java:18-19 | an unsupported type on a found account is not retried and ends in the recover response after one lookup, with no save |
| Bank.ServeStep | src/main/java/com/cobank/service/transaction/TransactionService.java:44-45 | one request against the store changes only the addressed account, by exactly its signed amount when it succeeded; the store keeps its keys, its keying and its non-negative balances |
| Bank.RunKeepsBalancesNonNegative | src/main/java/com/cobank/domain/Account.java:34-36 | no sequence of requests makes any stored balance negative or loses an account |
| Bank.RunBalance | src/main/java/com/cobank/service/transaction/TransactionService.java:66-70 | after any sequence of requests an account's balance is its opening balance plus the net of its successful transactions |
| BankOpening.OpenKeepsInvariant | src/main/java/com/cobank/service/AccountService.java:36-46 | filing a new account under an unused IBAN keeps every existing account, and keeps the store well keyed and non-negative |
| BankOpening.NoOverdraftAfterOpening | src/main/java/com/cobank/service/AccountService.java:42 | from a new account, the balance after any requests equals the net of its successful transactions, and that net is never negative |
| AccountService.NewAccount | src/main/java/com/cobank/service/AccountService.java:36-43 | a new account has balance 0, the generated IBAN, the given id, and the request's name, address and email |
| AccountService.ToCreateAccountResponse | src/main/java/com/cobank/service/AccountService.java:57-63 | the creation response carries the account's id, IBAN and address |
| AccountService.ToFetchBalanceResponse | src/main/java/com/cobank/service/AccountService.java:65-69 | the balance response carries the account's IBAN and balance |
| AccountService.CreateAccount | src/main/java/com/cobank/service/AccountService.java:32-47 | the account handed to save is the new account; the result is empty iff save returns null, and otherwise echoes the saved account |
| AccountService.CreateAccountEchoesNewAccount | src/test/java/com/cobank/service/AccountServiceTest.java:38-68 | when save returns its argument, the response holds the given id, the generated IBAN and the request's address |
| AccountService.GetBalanceByIban | src/main/java/com/cobank/service/AccountService.java:51-55 | a null IBAN answers empty without querying; otherwise the store is queried, an unknown IBAN answers empty and a known one the stored account's IBAN and balance |
| AccountService.BalanceEchoesIban | src/test/java/com/cobank/service/AccountServiceTest.java:87-107 | on a well-keyed store a known IBAN's response echoes that IBAN and its balance |
| Repository.FindByIban | src/main/java/com/cobank/repository/AccountRepository.java:16-20 | the lookup finds an account iff its IBAN is a key, and a found account carries the IBAN asked for |
| IbanService.DigitChar | src/main/java/com/cobank/service/iban/IbanService.java:37 | each drawn integer becomes the digit character of that value |
| IbanService.RandomNumericString | src/main/java/com/cobank/service/iban/IbanService.java:35-39 | the account number has one character per draw, each a decimal digit |
| IbanService.DigitsRoundTrip | src/main/java/com/cobank/service/iban/IbanService.java:36-38 | reading the digit string back gives exactly the draws |
| IbanService.GenerateIban | src/main/java/com/cobank/service/iban/IbanService.java:30-33 | the IBAN is country code, check digits, bank code, then accountNumberLength decimal digits, and its length is the sum of the parts |
| IbanService.AccountNumberRecoverable | src/main/java/com/cobank/service/iban/IbanService.java:30-38 | the part after the prefix reads back as the draws, so different draws give different IBANs |
| IbanService.SharedPrefix | src/main/java/com/cobank/service/iban/IbanService.java:32 | any two generated IBANs share the configured prefix |
| IbanService.CooperativeIbanShape | src/test/java/com/cobank/service/IbanServiceTest.java:20-28 | with NL/00/COOP/10 every IBAN starts with "NL00COOP" and has length 18 |

## Left out

- Locking, isolation and concurrency: the pessimistic row lock, SERIALIZABLE isolation and the 5 s timeout are not modelled. Lock contention is only a per-attempt lookup outcome, and requests are served one after another.
- Sleeping: the backoff waits are numbers, and no time passes.
- Spring's cap on the backoff wait (`maxDelay`, 30 s by default): it never applies within three attempts.
- A failing `save` inside processTransaction: the model treats `save` as always succeeding there.
- A failing `save` inside createAccount: the IBAN and email columns are unique (Account.java:22,31), so saving a duplicate throws. `CreateAccount` takes the repository's answer as an input and does not model that exception; the opening lemmas require a fresh IBAN instead.
- A null transaction type: the immutable map in the factory rejects a null key with a `NullPointerException` before the throwing default runs. That exception also escapes the attempt, is not retried and ends in the recover response, so the outcome of processTransaction is the same as for `OtherType`; only the factory's own error differs.
- Database errors in store-level runs: `Bank.Outcomes` yields only lock failures and the store's read. A database error saves nothing, so it cannot affect the balance invariants.
- The transaction history ledger, its paginated query and the history cache: the service code never writes history.
- Spring wiring, the controller, the exception handler and the API interfaces: this is transport plumbing.
- Bean-validation annotations on the request records: the framework enforces them, so the records are plain datatypes.
- Floating point: the code mixes `double` and `BigDecimal`, and all money is integer cents here.
- Randomness: `SecureRandom` draws and `UUID.randomUUID` are inputs. IBAN uniqueness is probabilistic and is not a theorem.
- A negative `accountNumberLength` makes the random stream throw. The model's configuration length is a natural number.
- Logging.
