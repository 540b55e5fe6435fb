/** IBAN generation: a configured prefix followed by random decimal digits. */
module IbanService {

  /** The four configuration properties of the generator. */
  datatype IbanConfig = IbanConfig(countryCode: string, checkDigits: string, bankCode: string, accountNumberLength: nat)

  /** The configuration the bank runs with: NL, check digits 00, bank COOP, ten digits. */
  const CooperativeConfig := IbanConfig("NL", "00", "COOP", 10)

  predicate IsDigit(c: char) {
    '0' <= c <= '9'
  }

  /** What the random source yields: integers drawn from [0, 10). */
  predicate IsDigitDraw(draws: seq<int>) {
    forall i :: 0 <= i < |draws| ==> 0 <= draws[i] < 10
  }

  /** String.valueOf of a single digit. */
  function DigitChar(d: int): (c: char)
    requires 0 <= d < 10
    ensures IsDigit(c)
    ensures c as int - '0' as int == d
  {
    (('0' as int) + d) as char
  }

  /** The decimal value of a digit character. */
  function DigitValue(c: char): int
  {
    c as int - '0' as int
  }

  /** The random drawn digits, each written out and joined. */
  function RandomNumericString(draws: seq<int>): (s: string)
    requires IsDigitDraw(draws)
    ensures |s| == |draws|
    ensures forall i :: 0 <= i < |s| ==> IsDigit(s[i])
  {
    if draws == [] then [] else [DigitChar(draws[0])] + RandomNumericString(draws[1..])
  }

  /** Reading a digit string back into its digit values. */
  function DigitValues(s: string): (ds: seq<int>)
    ensures |ds| == |s|
  {
    if s == [] then [] else [DigitValue(s[0])] + DigitValues(s[1..])
  }

  /** The digits can be read back: the account number determines the draws. */
  lemma {:induction false} DigitsRoundTrip(draws: seq<int>)
    requires IsDigitDraw(draws)
    ensures DigitValues(RandomNumericString(draws)) == draws
    decreases |draws|
  {
    if draws != [] {
      assert IsDigitDraw(draws[1..]);
      DigitsRoundTrip(draws[1..]);
    }
  }

  /** The part of every IBAN that does not depend on the random draws. */
  function Prefix(config: IbanConfig): string
  {
    config.countryCode + config.checkDigits + config.bankCode
  }

  /** generateIban, with the random source's draws as an input. */
  function GenerateIban(config: IbanConfig, draws: seq<int>): (iban: string)
    requires |draws| == config.accountNumberLength && IsDigitDraw(draws)
    ensures |iban| == |config.countryCode| + |config.checkDigits| + |config.bankCode| + config.accountNumberLength
    ensures iban[..|config.countryCode|] == config.countryCode
    ensures iban[|config.countryCode|..|config.countryCode| + |config.checkDigits|] == config.checkDigits
    ensures iban[|config.countryCode| + |config.checkDigits|..|Prefix(config)|] == config.bankCode
    ensures forall i :: |Prefix(config)| <= i < |iban| ==> IsDigit(iban[i])
  {
    var accountNumber := RandomNumericString(draws);
    config.countryCode + config.checkDigits + config.bankCode + accountNumber
  }

  /** Generation is injective in the draws: the account number reads back as them. */
  lemma AccountNumberRecoverable(config: IbanConfig, draws: seq<int>)
    requires |draws| == config.accountNumberLength && IsDigitDraw(draws)
    ensures DigitValues(GenerateIban(config, draws)[|Prefix(config)|..]) == draws
  {
    var iban := GenerateIban(config, draws);
    assert iban[|Prefix(config)|..] == RandomNumericString(draws);
    DigitsRoundTrip(draws);
  }

  /** Any two generated IBANs share the configured prefix, whatever the draws. */
  lemma SharedPrefix(config: IbanConfig, d1: seq<int>, d2: seq<int>)
    requires |d1| == config.accountNumberLength && IsDigitDraw(d1)
    requires |d2| == config.accountNumberLength && IsDigitDraw(d2)
    ensures GenerateIban(config, d1)[..|Prefix(config)|] == GenerateIban(config, d2)[..|Prefix(config)|] == Prefix(config)
  {
    assert GenerateIban(config, d1) == Prefix(config) + RandomNumericString(d1);
    assert GenerateIban(config, d2) == Prefix(config) + RandomNumericString(d2);
  }

  /** With the bank's configuration every IBAN starts with "NL00COOP" and is 18 characters long. */
  lemma CooperativeIbanShape(draws: seq<int>)
    requires |draws| == 10 && IsDigitDraw(draws)
    ensures |GenerateIban(CooperativeConfig, draws)| == 18
    ensures GenerateIban(CooperativeConfig, draws)[..8] == "NL00COOP"
  {
    SharedPrefix(CooperativeConfig, draws, draws);
  }
}
