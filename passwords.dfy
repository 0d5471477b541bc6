/**
 * The password complexity rule (`ComplexPasswordValidator.validate`): a
 * password needs an upper-case letter, a lower-case letter and a digit; the
 * checks run in that order and only the first failure is reported.
 */
module Passwords {
  import opened Records

  /** The validation error raised, by its `code`. */
  datatype PasswordError = NoUpper | NoLower | NoDigit

  function Code(e: PasswordError): string {
    match e
    case NoUpper => "password_no_upper"
    case NoLower => "password_no_lower"
    case NoDigit => "password_no_digit"
  }

  /** `re.search("[lo-hi]", s)` succeeds: some character of `s` lies in the range. */
  function ContainsIn(s: string, lo: char, hi: char): (found: bool)
    ensures found <==> exists i :: 0 <= i < |s| && lo <= s[i] <= hi
  {
    if |s| == 0 then false
    else if lo <= s[0] <= hi then true
    else
      var rest := ContainsIn(s[1..], lo, hi);
      assert forall i :: 0 < i < |s| ==> s[i] == s[1..][i - 1];
      assert rest ==> exists i :: 0 <= i < |s| && lo <= s[i] <= hi by {
        if rest {
          var j :| 0 <= j < |s[1..]| && lo <= s[1..][j] <= hi;
          assert lo <= s[j + 1] <= hi;
        }
      }
      rest
  }

  predicate HasUpper(s: string) { exists i :: 0 <= i < |s| && 'A' <= s[i] <= 'Z' }
  predicate HasLower(s: string) { exists i :: 0 <= i < |s| && 'a' <= s[i] <= 'z' }
  predicate HasDigit(s: string) { exists i :: 0 <= i < |s| && '0' <= s[i] <= '9' }

  /** `validate`: None when the password is accepted, else the first rule it breaks. */
  function Validate(password: string): (r: Option<PasswordError>)
    ensures r == Some(NoUpper) <==> !HasUpper(password)
    ensures r == Some(NoLower) <==> HasUpper(password) && !HasLower(password)
    ensures r == Some(NoDigit) <==> HasUpper(password) && HasLower(password) && !HasDigit(password)
    ensures r == None <==> HasUpper(password) && HasLower(password) && HasDigit(password)
  {
    if !ContainsIn(password, 'A', 'Z') then Some(NoUpper)
    else if !ContainsIn(password, 'a', 'z') then Some(NoLower)
    else if !ContainsIn(password, '0', '9') then Some(NoDigit)
    else None
  }

  /** Adding characters to an accepted password never makes it rejected. */
  lemma ExtendingKeepsAccepted(password: string, more: string)
    requires Validate(password) == None
    ensures Validate(password + more) == None
  {
    var p := password + more;
    var u :| 0 <= u < |password| && 'A' <= password[u] <= 'Z';
    var l :| 0 <= l < |password| && 'a' <= password[l] <= 'z';
    var d :| 0 <= d < |password| && '0' <= password[d] <= '9';
    assert p[u] == password[u] && p[l] == password[l] && p[d] == password[d];
  }

  /** A password that breaks a rule is rejected with that rule's code or an earlier one's. */
  lemma FirstFailureReported(password: string)
    ensures !HasDigit(password) ==> Validate(password).Some?
    ensures !HasLower(password) ==> Validate(password) in {Some(NoUpper), Some(NoLower)}
  {
  }
}
