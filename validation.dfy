/** The input checks `Bank.getAccountInfo` applies to a new account's fields. */
module Validation {
  import opened Wrappers
  import opened Entities
  import opened AccountStore

  /** Why a field was rejected; each is one of the messages the prompt prints. */
  datatype FieldError =
    | NotAName        // name outside [a-zA-Z' ]+
    | NotNumeric      // CPF or phone outside [0-9]+
    | WrongLength     // CPF or phone not 11 characters long
    | TooShort        // password shorter than 6
    | UnknownType     // no account type has that name
    | TypeAlreadyHeld // the CPF already holds an account of that type

  predicate IsNameChar(c: char) {
    'a' <= c <= 'z' || 'A' <= c <= 'Z' || c == '\'' || c == ' '
  }

  predicate IsAsciiDigit(c: char) {
    '0' <= c <= '9'
  }

  /** `s.matches("[C]+")` for a character class `C`: the whole of `s`, and at
      least one character, lies in the class. */
  function MatchesClassPlus(s: string, inClass: char -> bool): (b: bool)
    ensures b <==> |s| > 0 && forall i :: 0 <= i < |s| ==> inClass(s[i])
  {
    if |s| == 0 then false
    else inClass(s[0]) && (|s| == 1 || MatchesClassPlus(s[1..], inClass))
  }

  /** Java's `String.length()`: UTF-16 code units, two for a character outside
      the Basic Multilingual Plane. */
  function Utf16Length(s: string): (r: nat)
    ensures |s| <= r <= 2 * |s|
    ensures (forall i :: 0 <= i < |s| ==> s[i] as int < 0x1_0000) ==> r == |s|
  {
    if |s| == 0 then 0
    else (if s[0] as int < 0x1_0000 then 1 else 2) + Utf16Length(s[1..])
  }

  function CheckName(name: string): (r: Outcome<FieldError>)
    ensures r.Pass? <==> |name| > 0 && forall i :: 0 <= i < |name| ==> IsNameChar(name[i])
    ensures r.Fail? ==> r.error == NotAName
  {
    if MatchesClassPlus(name, IsNameChar) then Pass else Fail(NotAName)
  }

  /** The CPF check and the phone check: digits first, then exactly 11 of them
      (all ASCII by then, so code units and characters agree). */
  function CheckElevenDigits(s: string): (r: Outcome<FieldError>)
    ensures r.Pass? <==> |s| == 11 && forall i :: 0 <= i < |s| ==> IsAsciiDigit(s[i])
    ensures r == Fail(NotNumeric) <==> !(|s| > 0 && forall i :: 0 <= i < |s| ==> IsAsciiDigit(s[i]))
    ensures r == Fail(WrongLength) <==> |s| > 0 && |s| != 11 && forall i :: 0 <= i < |s| ==> IsAsciiDigit(s[i])
  {
    if !MatchesClassPlus(s, IsAsciiDigit) then Fail(NotNumeric)
    else if Utf16Length(s) != 11 then Fail(WrongLength)
    else Pass
  }

  function CheckPassword(password: string): (r: Outcome<FieldError>)
    ensures r.Pass? <==> Utf16Length(password) >= 6
    ensures |password| >= 6 ==> r.Pass?
    ensures r.Fail? ==> r == Fail(TooShort)
    ensures |password| < 3 ==> r == Fail(TooShort)
  {
    if Utf16Length(password) < 6 then Fail(TooShort) else Pass
  }

  function UpperAscii(c: char): char {
    if 'a' <= c <= 'z' then (c as int - 'a' as int + 'A' as int) as char else c
  }

  /** `s.toUpperCase()` restricted to ASCII letters. */
  function ToUpper(s: string): (r: string)
    ensures |r| == |s|
    ensures forall i :: 0 <= i < |s| ==> r[i] == UpperAscii(s[i])
  {
    seq(|s|, i requires 0 <= i < |s| => UpperAscii(s[i]))
  }

  /** `AccountType.valueOf(type.toUpperCase())`, `None` where the source's
      check finds no constant of that name. */
  function ParseAccountType(text: string): (r: Option<AccountType>)
    ensures r.Some? ==> AccountTypeName(r.value) == ToUpper(text)
    ensures r.None? <==> forall t: AccountType :: AccountTypeName(t) != ToUpper(text)
  {
    var upper := ToUpper(text);
    if upper == "CHECKING" then Some(CHECKING)
    else if upper == "SAVINGS" then Some(SAVINGS)
    else if upper == "SALARY" then Some(SALARY)
    else if upper == "BUSINESS" then Some(BUSINESS)
    else if upper == "STUDENT" then Some(STUDENT)
    else if upper == "INVESTMENT" then Some(INVESTMENT)
    else None
  }

  /** Every type, typed as its own name, is read back as that type. */
  lemma ParseAccountTypeName(t: AccountType)
    ensures ParseAccountType(AccountTypeName(t)) == Some(t)
  {
    var name := AccountTypeName(t);
    assert ToUpper(name) == name;
  }

  /** The type is accepted when it names a type and the CPF does not already
      hold an account of that type. */
  function CheckAccountType(table: Table, cpf: string, text: string): (r: Outcome<FieldError>)
    ensures r.Pass? <==> ParseAccountType(text).Some? && !HasTypeForCpf(table, ParseAccountType(text).value, cpf)
    ensures r == Fail(UnknownType) <==> ParseAccountType(text).None?
    ensures r == Fail(TypeAlreadyHeld) <==>
      ParseAccountType(text).Some? && HasTypeForCpf(table, ParseAccountType(text).value, cpf)
  {
    match ParseAccountType(text)
    case None => Fail(UnknownType)
    case Some(t) => if HasTypeForCpf(table, t, cpf) then Fail(TypeAlreadyHeld) else Pass
  }
}
