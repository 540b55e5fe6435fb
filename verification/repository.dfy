/** The account repository, abstracted as a map keyed by IBAN. */
module Repository {
  import opened Wrappers
  import opened Domain

  type Store = map<string, Account>

  /** Every account is filed under its own IBAN (the IBAN column is unique). */
  ghost predicate WellKeyed(s: Store) {
    forall k :: k in s ==> s[k].iban == k
  }

  /** The balance invariant: no stored account is overdrawn. */
  ghost predicate NonNegative(s: Store) {
    forall k :: k in s ==> s[k].balance >= 0
  }

  /** findByIban / findByIbanForUpdate against the store. */
  function FindByIban(s: Store, iban: string): (r: Option<Account>)
    ensures r.Some? <==> iban in s
    ensures r.Some? ==> r.value == s[iban]
    ensures r.Some? && WellKeyed(s) ==> r.value.iban == iban
  {
    if iban in s then Some(s[iban]) else None
  }

  /** save: writes the account back under its IBAN. */
  function Save(s: Store, a: Account): (s': Store)
    ensures a.iban in s' && s'[a.iban] == a
    ensures s'.Keys == s.Keys + {a.iban}
    ensures forall k :: k in s && k != a.iban ==> k in s' && s'[k] == s[k]
    ensures WellKeyed(s) ==> WellKeyed(s')
  {
    s[a.iban := a]
  }
}
