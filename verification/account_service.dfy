/** Account opening and balance enquiry. */
module AccountService {
  import opened Wrappers
  import opened Domain
  import opened Repository

  /** The account createAccount builds: generated IBAN, request's details, balance zero. */
  function NewAccount(id: AccountId, iban: string, request: CreateAccountRequest): (a: Account)
    ensures a.balance == 0
    ensures a.id == id && a.iban == iban
    ensures a.firstName == request.firstName && a.address == request.address && a.email == request.email
  {
    Account(id, iban, request.firstName, request.address, request.email, 0)
  }

  function ToCreateAccountResponse(a: Account): (r: CreateAccountResponse)
    ensures r.id == a.id && r.iban == a.iban && r.address == a.address
  {
    CreateAccountResponse(a.id, a.iban, a.address)
  }

  function ToFetchBalanceResponse(a: Account): (r: FetchBalanceResponse)
    ensures r.iban == a.iban && r.balance == a.balance
  {
    FetchBalanceResponse(a.iban, a.balance)
  }

  /** The account handed to the repository's save, and what createAccount returns. */
  datatype Created = Created(toSave: Account, response: Option<CreateAccountResponse>)

  /**
   * createAccount with the generator's IBAN, the random UUID and the
   * repository's answer to save (None when it answers null) as inputs.
   */
  function CreateAccount(request: CreateAccountRequest, generatedIban: string, id: AccountId,
                         saveResult: Option<Account>): (r: Created)
    ensures r.toSave.balance == 0
    ensures r.toSave.iban == generatedIban && r.toSave.id == id
    ensures r.toSave.firstName == request.firstName && r.toSave.address == request.address
    ensures r.toSave.email == request.email
    ensures r.response.None? <==> saveResult.None?
    ensures saveResult.Some? ==>
              r.response == Some(CreateAccountResponse(saveResult.value.id, saveResult.value.iban, saveResult.value.address))
  {
    var account := NewAccount(id, generatedIban, request);
    Created(account, MapOption(saveResult, ToCreateAccountResponse))
  }

  /** When the repository returns what it was given, the response echoes the new account. */
  lemma CreateAccountEchoesNewAccount(request: CreateAccountRequest, generatedIban: string, id: AccountId)
    ensures var c := CreateAccount(request, generatedIban, id, Some(NewAccount(id, generatedIban, request)));
            c.response == Some(CreateAccountResponse(id, generatedIban, request.address))
  {
  }

  /** getBalanceByIban's answer, and whether it queried the repository. */
  datatype BalanceLookup = BalanceLookup(response: Option<FetchBalanceResponse>, queried: bool)

  /** getBalanceByIban, where None is a null IBAN. */
  function GetBalanceByIban(s: Store, iban: Option<string>): (r: BalanceLookup)
    ensures r.queried <==> iban.Some?
    ensures r.response.Some? <==> iban.Some? && iban.value in s
    ensures r.response.Some? ==> r.response.value == FetchBalanceResponse(s[iban.value].iban, s[iban.value].balance)
  {
    match iban
    case None => BalanceLookup(None, false)
    case Some(i) => BalanceLookup(MapOption(FindByIban(s, i), ToFetchBalanceResponse), true)
  }

  /** On a well-keyed store the balance reported for a known IBAN is under that IBAN. */
  lemma BalanceEchoesIban(s: Store, iban: string)
    requires WellKeyed(s) && iban in s
    ensures GetBalanceByIban(s, Some(iban)).response == Some(FetchBalanceResponse(iban, s[iban].balance))
  {
  }
}
