/**
 * processTransaction with its declarative retry policy, modelled
 * sequentially: the answer the locked lookup gives on each attempt is an
 * input, and the result records how many lookups and saves happened and
 * which backoff waits were taken.
 */
module TransactionService {
  import opened Wrappers
  import opened Domain
  import opened Transactions
  import opened TransactionFactory

  /** The retry policy: at most three attempts, 1000 ms initial delay, doubling. */
  const MaxAttempts: nat := 3
  const InitialDelayMs: nat := 1000
  const BackoffMultiplier: nat := 2

  /** The balance -1 that marks a failed transaction, in cents. */
  const FailureSentinel: int := -100

  const ProcessedSuccessfully := "Transaction processed successfully"
  const InvalidTransactionAmount := "Invalid transaction amount"
  const DatabaseErrorMessage := "Database error, please try again later"
  const RetriesExhaustedMessage := "Transaction could not be completed after multiple attempts. Please try again later."

  /**
   * What one call of the locking lookup does. LockFailure is a lock
   * exception that leaves the try block; DatabaseError is any data-access
   * exception, which the try block catches.
   */
  datatype LookupOutcome = Found(account: Account) | NotFound | LockFailure | DatabaseError

  /** The body of execute once it returns: the account it saved and the response. */
  datatype Executed = Executed(saved: Account, response: TransactionResponse)

  /** How one attempt ends: it returns a value, or an exception escapes it. */
  datatype Attempt =
    | Returned(response: Option<TransactionResponse>, lookedUp: bool, saved: Option<Account>)
    | Escaped(retryable: bool)

  /** The whole call: response, number of lookups, accounts saved, waits taken (ms). */
  datatype Processed = Processed(response: Option<TransactionResponse>, lookups: nat, saved: seq<Account>, waits: seq<nat>)

  function Pow(base: nat, exp: nat): (r: nat)
    ensures base >= 1 ==> r >= 1
  {
    if exp == 0 then 1 else base * Pow(base, exp - 1)
  }

  /** The wait after failed attempt k, before attempt k + 1. */
  function BackoffDelay(k: nat): (d: nat)
    requires k >= 1
    ensures d >= InitialDelayMs
  {
    InitialDelayMs * Pow(BackoffMultiplier, k - 1)
  }

  /** The waits taken after the first n failed attempts. */
  function BackoffSchedule(n: nat): (w: seq<nat>)
    ensures |w| == n
    ensures forall i :: 0 <= i < n ==> w[i] == BackoffDelay(i + 1)
  {
    seq(n, i requires 0 <= i => BackoffDelay(i + 1))
  }

  /** The response that stands for a failure. */
  function Failed(iban: string, message: string): TransactionResponse
  {
    TransactionResponse(iban, FailureSentinel, message)
  }

  function ValidateRequestAmount(request: TransactionRequest): (r: Outcome<Error>)
    ensures r.Pass? <==> request.amount > 0
    ensures r.Fail? ==> r.error.IllegalArgument?
  {
    if request.amount <= 0 then Fail(IllegalArgument(AmountMustBePositive + ".")) else Pass
  }

  /** The private execute: build the strategy, run it, save, answer. */
  function ExecuteRequest(request: TransactionRequest, account: Account): (r: Result<Executed, Error>)
    ensures request.kind.OtherType? ==> r == Failure(UnsupportedOperation(UnsupportedTypeMessage))
    ensures !request.kind.OtherType? ==>
              (r.Success? <==> request.amount > 0 && (request.kind == Withdrawal ==> account.balance >= request.amount))
    ensures !request.kind.OtherType? && r.Failure? ==> r.error.IllegalArgument?
    ensures r.Success? ==> r.value.saved.(balance := account.balance) == account
    ensures r.Success? && request.kind == Deposit ==> r.value.saved.balance == account.balance + request.amount
    ensures r.Success? && request.kind == Withdrawal ==> r.value.saved.balance == account.balance - request.amount
    ensures r.Success? ==>
              r.value.response == TransactionResponse(account.iban, r.value.saved.balance, ProcessedSuccessfully)
  {
    match CreateTransaction(account, request)
    case Failure(e) => Failure(e)
    case Success(t) =>
      match Execute(t)
      case Failure(e) => Failure(e)
      case Success(updated) =>
        Success(Executed(updated, TransactionResponse(updated.iban, updated.balance, ProcessedSuccessfully)))
  }

  /** One pass through the try block of processTransaction. */
  function RunAttempt(request: TransactionRequest, outcome: LookupOutcome): (a: Attempt)
    ensures request.amount <= 0 ==>
              a == Returned(Some(Failed(request.iban, InvalidTransactionAmount)), false, None)
    ensures a.Returned? && a.saved.Some? ==>
              a.lookedUp && outcome.Found? && a.response == Some(TransactionResponse(outcome.account.iban, a.saved.value.balance, ProcessedSuccessfully))
    ensures a.Escaped? && a.retryable <==> request.amount > 0 && outcome.LockFailure?
  {
    match ValidateRequestAmount(request)
    case Fail(_) => Returned(Some(Failed(request.iban, InvalidTransactionAmount)), false, None)
    case Pass =>
      match outcome
      case NotFound => Returned(None, true, None)
      case LockFailure => Escaped(true)
      case DatabaseError => Returned(Some(Failed(request.iban, DatabaseErrorMessage)), true, None)
      case Found(account) =>
        match ExecuteRequest(request, account)
        case Success(e) => Returned(Some(e.response), true, Some(e.saved))
        case Failure(IllegalArgument(_)) => Returned(Some(Failed(request.iban, InvalidTransactionAmount)), true, None)
        case Failure(UnsupportedOperation(_)) => Escaped(false)
  }

  /** The recover method: the fallback response once no further attempt is made. */
  function RecoverFromLockFailure(request: TransactionRequest): (r: TransactionResponse)
    ensures r.iban == request.iban && r.newBalance == FailureSentinel
  {
    Failed(request.iban, RetriesExhaustedMessage)
  }

  function SavedOf(a: Option<Account>): (s: seq<Account>)
    ensures |s| <= 1
    ensures a.Some? <==> |s| == 1
    ensures a.Some? ==> s[0] == a.value
  {
    if a.Some? then [a.value] else []
  }

  /**
   * Attempts `attempt` .. MaxAttempts. An escaping lock failure is retried
   * after its backoff wait while attempts remain; any other escaping
   * exception, or the last lock failure, goes to the recover method.
   */
  function Retry(request: TransactionRequest, outcomes: seq<LookupOutcome>, attempt: nat): (p: Processed)
    requires 1 <= attempt <= MaxAttempts <= |outcomes|
    decreases MaxAttempts - attempt
    ensures p.lookups <= MaxAttempts - attempt + 1
    ensures |p.saved| <= 1
    ensures |p.waits| + 1 == p.lookups || (p.lookups == 0 && p.waits == [])
    ensures forall i :: 0 <= i < |p.waits| ==> p.waits[i] == BackoffDelay(attempt + i)
    ensures |p.saved| == 1 <==> p.response.Some? && p.response.value.description == ProcessedSuccessfully
  {
    match RunAttempt(request, outcomes[attempt - 1])
    case Returned(response, lookedUp, saved) =>
      Processed(response, if lookedUp then 1 else 0, SavedOf(saved), [])
    case Escaped(retryable) =>
      if retryable && attempt < MaxAttempts then
        var rest := Retry(request, outcomes, attempt + 1);
        Processed(rest.response, rest.lookups + 1, rest.saved, [BackoffDelay(attempt)] + rest.waits)
      else
        Processed(Some(RecoverFromLockFailure(request)), 1, [], [])
  }

  /** processTransaction with the retry and recover wiring around it. */
  function ProcessTransaction(request: TransactionRequest, outcomes: seq<LookupOutcome>): (p: Processed)
    requires MaxAttempts <= |outcomes|
    ensures request.amount <= 0 ==>
              p == Processed(Some(Failed(request.iban, InvalidTransactionAmount)), 0, [], [])
    ensures p.lookups <= MaxAttempts
    ensures |p.saved| <= 1
    ensures p.waits == BackoffSchedule(|p.waits|)
    ensures |p.saved| == 1 <==> p.response.Some? && p.response.value.description == ProcessedSuccessfully
  {
    Retry(request, outcomes, 1)
  }
}

/**
 * An outcome table for processTransaction written independently of the
 * retry recursion, and the theorems that connect the two.
 */
module TransactionOutcomes {
  import opened Wrappers
  import opened Domain
  import opened Transactions
  import opened TransactionService

  /** The balance a valid request leaves on the account. */
  function Shifted(kind: TransactionType, balance: int, amount: int): int
  {
    if kind == Withdrawal then balance - amount else balance + amount
  }

  /**
   * What the deciding lookup (the first one that is not a lock failure, or
   * the last permitted one) makes of a request with a positive amount:
   * the response and the accounts saved, counting that one lookup.
   */
  function Decided(request: TransactionRequest, outcome: LookupOutcome): Processed
  {
    match outcome
    case NotFound => Processed(None, 1, [], [])
    case DatabaseError => Processed(Some(Failed(request.iban, DatabaseErrorMessage)), 1, [], [])
    case LockFailure => Processed(Some(Failed(request.iban, RetriesExhaustedMessage)), 1, [], [])
    case Found(a) =>
      if request.kind.OtherType? then
        Processed(Some(Failed(request.iban, RetriesExhaustedMessage)), 1, [], [])
      else if request.kind == Withdrawal && a.balance < request.amount then
        Processed(Some(Failed(request.iban, InvalidTransactionAmount)), 1, [], [])
      else
        var b := Shifted(request.kind, a.balance, request.amount);
        Processed(Some(TransactionResponse(a.iban, b, ProcessedSuccessfully)), 1, [a.(balance := b)], [])
  }

  /** The retry recursion from `attempt` on, when lookups attempt .. k hit lock failures first. */
  lemma {:induction false} RetryReachesDecidingAttempt(request: TransactionRequest, outcomes: seq<LookupOutcome>, attempt: nat, k: nat)
    requires 1 <= attempt <= k + 1 <= MaxAttempts <= |outcomes|
    requires request.amount > 0
    requires forall j :: attempt - 1 <= j < k ==> outcomes[j].LockFailure?
    requires !outcomes[k].LockFailure? || k + 1 == MaxAttempts
    ensures Retry(request, outcomes, attempt).lookups == k + 2 - attempt
    ensures |Retry(request, outcomes, attempt).waits| == k + 1 - attempt
    ensures Retry(request, outcomes, attempt).response == Decided(request, outcomes[k]).response
    ensures Retry(request, outcomes, attempt).saved == Decided(request, outcomes[k]).saved
    decreases k + 1 - attempt
  {
    if attempt <= k {
      assert outcomes[attempt - 1].LockFailure?;
      RetryReachesDecidingAttempt(request, outcomes, attempt + 1, k);
    }
  }

  /**
   * Every call with a positive amount: k lock failures, then the deciding
   * lookup at index k. There are k + 1 lookups, the waits are the first k
   * backoff delays, and the response and saves are those the deciding
   * lookup dictates.
   */
  lemma ProcessTransactionOutcome(request: TransactionRequest, outcomes: seq<LookupOutcome>, k: nat)
    requires MaxAttempts <= |outcomes|
    requires request.amount > 0
    requires k < MaxAttempts
    requires forall j :: 0 <= j < k ==> outcomes[j].LockFailure?
    requires !outcomes[k].LockFailure? || k + 1 == MaxAttempts
    ensures ProcessTransaction(request, outcomes) ==
              Processed(Decided(request, outcomes[k]).response, k + 1, Decided(request, outcomes[k]).saved, BackoffSchedule(k))
  {
    RetryReachesDecidingAttempt(request, outcomes, 1, k);
  }

  /** A first-attempt deposit or covered withdrawal answers with the shifted balance and saves once. */
  lemma SuccessfulTransaction(request: TransactionRequest, a: Account, outcomes: seq<LookupOutcome>)
    requires MaxAttempts <= |outcomes| && outcomes[0] == Found(a)
    requires request.amount > 0
    requires request.kind == Deposit || (request.kind == Withdrawal && a.balance >= request.amount)
    ensures var b := if request.kind == Deposit then a.balance + request.amount else a.balance - request.amount;
            ProcessTransaction(request, outcomes) ==
              Processed(Some(TransactionResponse(a.iban, b, ProcessedSuccessfully)), 1, [a.(balance := b)], [])
  {
    ProcessTransactionOutcome(request, outcomes, 0);
  }

  /** An unknown IBAN gives the empty result after one lookup and no save. */
  lemma UnknownIban(request: TransactionRequest, outcomes: seq<LookupOutcome>)
    requires MaxAttempts <= |outcomes| && outcomes[0] == NotFound
    requires request.amount > 0
    ensures ProcessTransaction(request, outcomes) == Processed(None, 1, [], [])
  {
    ProcessTransactionOutcome(request, outcomes, 0);
  }

  /** Insufficient funds is caught as invalid input: sentinel response, no save. */
  lemma InsufficientFunds(request: TransactionRequest, a: Account, outcomes: seq<LookupOutcome>)
    requires MaxAttempts <= |outcomes| && outcomes[0] == Found(a)
    requires request.kind == Withdrawal && 0 < request.amount && a.balance < request.amount
    ensures ProcessTransaction(request, outcomes) ==
              Processed(Some(TransactionResponse(request.iban, FailureSentinel, InvalidTransactionAmount)), 1, [], [])
  {
    ProcessTransactionOutcome(request, outcomes, 0);
  }

  /** A data-access error is answered at once, never retried. */
  lemma DatabaseErrorNotRetried(request: TransactionRequest, outcomes: seq<LookupOutcome>)
    requires MaxAttempts <= |outcomes| && outcomes[0] == DatabaseError
    requires request.amount > 0
    ensures ProcessTransaction(request, outcomes) ==
              Processed(Some(TransactionResponse(request.iban, FailureSentinel, DatabaseErrorMessage)), 1, [], [])
  {
    ProcessTransactionOutcome(request, outcomes, 0);
  }

  /** One lock failure, then the account: two lookups, one save, one wait of 1000 ms. */
  lemma RetryThenSuccess(request: TransactionRequest, a: Account, outcomes: seq<LookupOutcome>)
    requires MaxAttempts <= |outcomes| && outcomes[0] == LockFailure && outcomes[1] == Found(a)
    requires request.kind == Deposit && request.amount > 0
    ensures ProcessTransaction(request, outcomes) ==
              Processed(Some(TransactionResponse(a.iban, a.balance + request.amount, ProcessedSuccessfully)), 2,
                        [a.(balance := a.balance + request.amount)], [1000])
  {
    ProcessTransactionOutcome(request, outcomes, 1);
    assert BackoffSchedule(1) == [BackoffDelay(1)];
  }

  /** Lock failures on all three attempts: the recover response, three lookups, no save, waits 1000 and 2000 ms. */
  lemma RetriesExhausted(request: TransactionRequest, outcomes: seq<LookupOutcome>)
    requires MaxAttempts <= |outcomes|
    requires outcomes[0] == LockFailure && outcomes[1] == LockFailure && outcomes[2] == LockFailure
    requires request.amount > 0
    ensures ProcessTransaction(request, outcomes) ==
              Processed(Some(TransactionResponse(request.iban, FailureSentinel, RetriesExhaustedMessage)), 3, [], [1000, 2000])
  {
    ProcessTransactionOutcome(request, outcomes, 2);
    assert BackoffSchedule(2) == [BackoffDelay(1), BackoffDelay(2)];
  }

  /** An unsupported type escapes the attempt, is not retried, and ends in the recover response. */
  lemma UnsupportedTypeRecovered(request: TransactionRequest, a: Account, outcomes: seq<LookupOutcome>)
    requires MaxAttempts <= |outcomes| && outcomes[0] == Found(a)
    requires request.kind.OtherType? && request.amount > 0
    ensures ProcessTransaction(request, outcomes) ==
              Processed(Some(TransactionResponse(request.iban, FailureSentinel, RetriesExhaustedMessage)), 1, [], [])
  {
    ProcessTransactionOutcome(request, outcomes, 0);
  }

  /** Each backoff wait doubles the previous one. */
  lemma BackoffDoubles(k: nat)
    requires k >= 1
    ensures BackoffDelay(k + 1) == BackoffMultiplier * BackoffDelay(k)
  {
  }
}
