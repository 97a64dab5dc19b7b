/** `validarSenhaForte`: the strong-password rule of the registration form,
    a chain of five tests, each returning its message on the first failure. */
module PasswordValidator {
  import opened Wrappers
  import Seqs
  import opened Text

  const TooShort := "M\U{00ED}nimo 8 caracteres"
  const NeedLower := "Inclua letra min\U{00FA}scula"
  const NeedUpper := "Inclua letra mai\U{00FA}scula"
  const NeedDigit := "Inclua n\U{00FA}mero"
  const NeedSpecial := "Inclua caractere especial"

  /** The regular-expression class `\w`: ASCII letters, digits and `_`. */
  predicate IsWordChar(c: char) {
    IsAsciiLetter(c) || IsDigit(c) || c == '_'
  }

  /** The class `[^\w\s]`: neither a word character nor whitespace. */
  predicate IsSpecial(c: char) {
    !IsWordChar(c) && !IsJsSpace(c)
  }

  predicate HasLower(p: string) {
    exists i :: 0 <= i < |p| && IsAsciiLower(p[i])
  }

  predicate HasUpper(p: string) {
    exists i :: 0 <= i < |p| && IsAsciiUpper(p[i])
  }

  predicate HasDigit(p: string) {
    exists i :: 0 <= i < |p| && IsDigit(p[i])
  }

  predicate HasSpecial(p: string) {
    exists i :: 0 <= i < |p| && IsSpecial(p[i])
  }

  /** `validarSenhaForte`: None for a strong password, otherwise the message
      of the first test it fails. */
  function ValidatePassword(p: string): (r: Option<string>)
    ensures r.None? <==> |p| >= 8 && HasLower(p) && HasUpper(p) && HasDigit(p) && HasSpecial(p)
    ensures |p| < 8 ==> r == Some(TooShort)
  {
    if |p| < 8 then Some(TooShort)
    else if !HasLower(p) then Some(NeedLower)
    else if !HasUpper(p) then Some(NeedUpper)
    else if !HasDigit(p) then Some(NeedDigit)
    else if !HasSpecial(p) then Some(NeedSpecial)
    else None
  }

  // ---------------------------------------------------------------------
  // The same rule as a table of requirements, tried in order

  /** The tests in the order the validator runs them, each with its message. */
  datatype Requirement = MinLength | Lowercase | Uppercase | Digit | Special

  const Requirements: seq<Requirement> := [MinLength, Lowercase, Uppercase, Digit, Special]

  function Message(q: Requirement): string {
    match q
    case MinLength => TooShort
    case Lowercase => NeedLower
    case Uppercase => NeedUpper
    case Digit => NeedDigit
    case Special => NeedSpecial
  }

  predicate Meets(p: string, q: Requirement) {
    match q
    case MinLength => |p| >= 8
    case Lowercase => HasLower(p)
    case Uppercase => HasUpper(p)
    case Digit => HasDigit(p)
    case Special => HasSpecial(p)
  }

  function Fails(p: string): Requirement -> bool {
    (q: Requirement) => !Meets(p, q)
  }

  /** The message of the first requirement the password does not meet. */
  function FirstFailure(p: string): Option<string> {
    match Seqs.FirstIndex(Requirements, Fails(p))
    case None => None
    case Some(k) => Some(Message(Requirements[k]))
  }

  /** The validator reports exactly the first unmet requirement of the
      table, so its messages come in the fixed order length, lowercase,
      uppercase, digit, special. */
  lemma ValidateIsFirstFailure(p: string)
    ensures ValidatePassword(p) == FirstFailure(p)
  {
    var rs := Requirements;
    var f := Fails(p);
    if |p| < 8 {
      Seqs.FirstIndexUnique(rs, f, 0);
    } else if !HasLower(p) {
      Seqs.FirstIndexUnique(rs, f, 1);
    } else if !HasUpper(p) {
      Seqs.FirstIndexUnique(rs, f, 2);
    } else if !HasDigit(p) {
      Seqs.FirstIndexUnique(rs, f, 3);
    } else if !HasSpecial(p) {
      Seqs.FirstIndexUnique(rs, f, 4);
    } else {
      assert forall k :: 0 <= k < |rs| ==> !f(rs[k]);
    }
  }

  /** `_` is a word character, so a password whose only non-alphanumeric
      characters are underscores is refused for want of a special character. */
  lemma UnderscoreNotSpecial(p: string)
    requires |p| >= 8 && HasLower(p) && HasUpper(p) && HasDigit(p)
    requires forall i :: 0 <= i < |p| ==> IsAsciiLetter(p[i]) || IsDigit(p[i]) || p[i] == '_'
    ensures ValidatePassword(p) == Some(NeedSpecial)
  {
    assert !HasSpecial(p) by {
      forall i | 0 <= i < |p| ensures !IsSpecial(p[i]) {
      }
    }
  }
}
