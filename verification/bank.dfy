/**
 * processTransaction run against an account store, one request after the
 * other: the locked lookup reads the store, a save writes back. This is
 * where the balance invariant of the whole system is proved. The lookups
 * here meet lock failures and then the store's read, never a database
 * error; a database error saves nothing, so it could not change a balance.
 */
module Bank {
  import opened Wrappers
  import opened Domain
  import opened Repository
  import opened TransactionService
  import opened TransactionOutcomes

  /** A request together with the number of lock failures its lookups meet first. */
  datatype Arrival = Arrival(request: TransactionRequest, contention: nat)

  /** The store's answer to each of the MaxAttempts lookups of one request. */
  function Outcomes(s: Store, iban: string, contention: nat): (o: seq<LookupOutcome>)
    ensures |o| == MaxAttempts
    ensures forall j :: 0 <= j < |o| && j < contention ==> o[j].LockFailure?
  {
    var read := match FindByIban(s, iban) case Some(a) => Found(a) case None => NotFound;
    seq(MaxAttempts, j requires 0 <= j => if j < contention then LockFailure else read)
  }

  /** The store after the call: the saved account, if any, is written back. */
  function Commit(s: Store, p: Processed): Store
  {
    if |p.saved| == 1 then Save(s, p.saved[0]) else s
  }

  /** The signed change a processed request makes to its account's balance. */
  function Delta(request: TransactionRequest, p: Processed): int
  {
    if |p.saved| == 1 then
      (if request.kind == Withdrawal then -request.amount else request.amount)
    else 0
  }

  function Serve(s: Store, arrival: Arrival): Processed
  {
    ProcessTransaction(arrival.request, Outcomes(s, arrival.request.iban, arrival.contention))
  }

  /**
   * One request against the store: only the addressed account can change,
   * by exactly the request's signed amount when it succeeded, and the
   * invariants of the store are kept.
   */
  lemma ServeStep(s: Store, arrival: Arrival)
    requires WellKeyed(s)
    ensures var p := Serve(s, arrival);
            var s' := Commit(s, p);
            && s'.Keys == s.Keys
            && WellKeyed(s')
            && (NonNegative(s) ==> NonNegative(s'))
            && (forall k :: k in s && k != arrival.request.iban ==> s'[k] == s[k])
            && (arrival.request.iban in s ==>
                  s'[arrival.request.iban].balance == s[arrival.request.iban].balance + Delta(arrival.request, p))
            && (|p.saved| == 1 ==> arrival.request.iban in s)
  {
    var request := arrival.request;
    var o := Outcomes(s, request.iban, arrival.contention);
    var p := ProcessTransaction(request, o);
    if request.amount > 0 {
      var k := if arrival.contention < MaxAttempts then arrival.contention else MaxAttempts - 1;
      ProcessTransactionOutcome(request, o, k);
      if request.iban in s {
        assert s[request.iban].iban == request.iban;
      }
    }
  }

  /** A sequence of requests, served in order. */
  function Run(s: Store, arrivals: seq<Arrival>): Store
    decreases |arrivals|
  {
    if arrivals == [] then s
    else Run(Commit(s, Serve(s, arrivals[0])), arrivals[1..])
  }

  /** The sum of the signed changes the requests of a run make to account `iban`. */
  function NetChange(s: Store, arrivals: seq<Arrival>, iban: string): int
    decreases |arrivals|
  {
    if arrivals == [] then 0
    else
      var p := Serve(s, arrivals[0]);
      (if arrivals[0].request.iban == iban then Delta(arrivals[0].request, p) else 0)
        + NetChange(Commit(s, p), arrivals[1..], iban)
  }

  /** No run of requests ever overdraws an account or loses one. */
  lemma {:induction false} RunKeepsBalancesNonNegative(s: Store, arrivals: seq<Arrival>)
    requires WellKeyed(s) && NonNegative(s)
    ensures Run(s, arrivals).Keys == s.Keys
    ensures WellKeyed(Run(s, arrivals)) && NonNegative(Run(s, arrivals))
    decreases |arrivals|
  {
    if arrivals != [] {
      ServeStep(s, arrivals[0]);
      RunKeepsBalancesNonNegative(Commit(s, Serve(s, arrivals[0])), arrivals[1..]);
    }
  }

  /** Conservation: a final balance is the initial one plus the successful deposits minus the successful withdrawals. */
  lemma {:induction false} RunBalance(s: Store, arrivals: seq<Arrival>, iban: string)
    requires WellKeyed(s) && iban in s
    ensures iban in Run(s, arrivals)
    ensures Run(s, arrivals)[iban].balance == s[iban].balance + NetChange(s, arrivals, iban)
    decreases |arrivals|
  {
    if arrivals != [] {
      ServeStep(s, arrivals[0]);
      RunBalance(Commit(s, Serve(s, arrivals[0])), arrivals[1..], iban);
    }
  }
}

/** Opening accounts: the base case of the balance invariant. */
module BankOpening {
  import opened Domain
  import opened Repository
  import opened AccountService
  import opened Bank

  /**
   * Filing a freshly created account under an unused IBAN (the IBAN column
   * is unique) keeps every existing account and keeps the store well keyed
   * and non-negative.
   */
  lemma OpenKeepsInvariant(s: Store, id: AccountId, iban: string, request: CreateAccountRequest)
    requires WellKeyed(s) && NonNegative(s)
    requires iban !in s
    ensures forall k :: k in s ==> k in Save(s, NewAccount(id, iban, request)) && Save(s, NewAccount(id, iban, request))[k] == s[k]
    ensures WellKeyed(Save(s, NewAccount(id, iban, request)))
    ensures NonNegative(Save(s, NewAccount(id, iban, request)))
  {
    var a := NewAccount(id, iban, request);
    var s' := Save(s, a);
    forall k | k in s'
      ensures s'[k].balance >= 0
    {
      if k != a.iban {
        assert s'[k] == s[k];
      }
    }
  }

  /**
   * Whatever requests follow an opening, the account's balance is the net
   * of its successful transactions and never drops below zero: successful
   * withdrawals never exceed successful deposits.
   */
  lemma NoOverdraftAfterOpening(s: Store, id: AccountId, iban: string, request: CreateAccountRequest, arrivals: seq<Arrival>)
    requires WellKeyed(s) && NonNegative(s)
    requires iban !in s
    ensures var withNew := Save(s, NewAccount(id, iban, request));
            && iban in Run(withNew, arrivals)
            && Run(withNew, arrivals)[iban].balance == NetChange(withNew, arrivals, iban)
            && NetChange(withNew, arrivals, iban) >= 0
  {
    var withNew := Save(s, NewAccount(id, iban, request));
    OpenKeepsInvariant(s, id, iban, request);
    RunKeepsBalancesNonNegative(withNew, arrivals);
    RunBalance(withNew, arrivals, iban);
  }
}
