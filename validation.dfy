/**
 * The registration rules of utils/validation.ts, checked as react-hook-form
 * checks a text field: `required` fails on the empty string, then
 * `minLength`, then `pattern`, then `validate`; the first failing rule's
 * message is the field's error.
 */
module Validation {
  import opened Text
  import opened Wrappers

  const FullNameRequired := "Full name is required"
  const NameTooShort := "Name must be at least 3 characters"
  const NameInvalid := "Name can only contain letters and spaces"
  const EmailRequired := "Email is required"
  const EmailInvalid := "Invalid email address"
  const PasswordRequired := "Password is required"
  const PasswordTooShort := "Password must be at least 8 characters"
  const PasswordTooWeak := "Password must contain uppercase, lowercase, and number"
  const ConfirmRequired := "Please confirm your password"
  const PasswordsDoNotMatch := "Passwords do not match"

  // ---------------------------------------------------------------- full name

  /** `/^[a-zA-Z\s]+$/` */
  predicate NamePattern(s: string) {
    |s| > 0 && forall i :: 0 <= i < |s| ==> IsLetter(s[i]) || IsWhitespace(s[i])
  }

  function ValidateFullName(value: string): (error: Option<string>)
    ensures error == None <==> |value| >= 3 && NamePattern(value)
    ensures error == Some(FullNameRequired) <==> value == ""
    ensures error == Some(NameTooShort) <==> 0 < |value| < 3
    ensures error == Some(NameInvalid) <==> |value| >= 3 && !NamePattern(value)
  {
    if value == "" then Some(FullNameRequired)
    else if |value| < 3 then Some(NameTooShort)
    else if !NamePattern(value) then Some(NameInvalid)
    else None
  }

  // -------------------------------------------------------------------- email

  /** `[A-Z0-9._%+-]` under the `i` flag */
  predicate IsLocalChar(c: char) {
    IsLetter(c) || IsDigit(c) || c == '.' || c == '_' || c == '%' || c == '+' || c == '-'
  }

  /** `[A-Z0-9.-]` under the `i` flag */
  predicate IsDomainChar(c: char) {
    IsLetter(c) || IsDigit(c) || c == '.' || c == '-'
  }

  /**
   * `s` matches with the `@` at `at` and the escaped `\.` at `dot`: a
   * non-empty local part before `at`, a non-empty domain between them and at
   * least two letters after `dot` up to the end.
   */
  predicate EmailSplit(s: string, at: nat, dot: nat)
    requires at < dot < |s|
  {
    && 0 < at && at + 1 < dot && dot + 2 < |s|
    && s[at] == '@' && s[dot] == '.'
    && (forall i :: 0 <= i < at ==> IsLocalChar(s[i]))
    && (forall i :: at < i < dot ==> IsDomainChar(s[i]))
    && (forall i :: dot < i < |s| ==> IsLetter(s[i]))
  }

  /** `/^[A-Z0-9._%+-]+@[A-Z0-9.-]+\.[A-Z]{2,}$/i` */
  predicate EmailPattern(s: string) {
    exists at: nat, dot: nat | at < dot < |s| :: EmailSplit(s, at, dot)
  }

  function ValidateEmail(value: string): (error: Option<string>)
    ensures error == None <==> EmailPattern(value)
    ensures error == Some(EmailRequired) <==> value == ""
    ensures error == Some(EmailInvalid) <==> value != "" && !EmailPattern(value)
  {
    if value == "" then Some(EmailRequired)
    else if !EmailPattern(value) then Some(EmailInvalid)
    else None
  }

  /** Parts that fit their classes make an address. */
  lemma EmailFromParts(local: string, domain: string, tld: string)
    requires |local| > 0 && forall i :: 0 <= i < |local| ==> IsLocalChar(local[i])
    requires |domain| > 0 && forall i :: 0 <= i < |domain| ==> IsDomainChar(domain[i])
    requires |tld| >= 2 && forall i :: 0 <= i < |tld| ==> IsLetter(tld[i])
    ensures EmailPattern(local + "@" + domain + "." + tld)
  {
    var s := local + "@" + domain + "." + tld;
    var at, dot := |local|, |local| + 1 + |domain|;
    forall i | 0 <= i < at ensures IsLocalChar(s[i]) {
      assert s[i] == local[i];
    }
    forall i | at < i < dot ensures IsDomainChar(s[i]) {
      assert s[i] == domain[i - at - 1];
    }
    forall i | dot < i < |s| ensures IsLetter(s[i]) {
      assert s[i] == tld[i - dot - 1];
    }
    assert EmailSplit(s, at, dot);
  }

  /** An accepted address has exactly one `@`, and its `\.` is the last dot. */
  lemma {:induction false} EmailSplitUnique(s: string, at: nat, dot: nat, at': nat, dot': nat)
    requires at < dot < |s| && EmailSplit(s, at, dot)
    requires at' < dot' < |s| && EmailSplit(s, at', dot')
    ensures at == at' && dot == dot'
    ensures forall i :: 0 <= i < |s| && s[i] == '@' ==> i == at
    ensures forall i :: dot < i < |s| ==> s[i] != '.'
  {
    forall i | 0 <= i < |s| && s[i] == '@' ensures i == at {
    }
    forall i | dot < i < |s| ensures s[i] != '.' {
    }
  }

  /** The `i` flag: upper-casing an address changes nothing about acceptance. */
  lemma EmailCaseInsensitive(s: string)
    ensures EmailPattern(Upper(s)) <==> EmailPattern(s)
  {
    var u := Upper(s);
    forall at: nat, dot: nat | at < dot < |s|
      ensures EmailSplit(u, at, dot) <==> EmailSplit(s, at, dot)
    {
      UpperKeepsChars(s);
    }
    if EmailPattern(s) {
      var at: nat, dot: nat :| at < dot < |s| && EmailSplit(s, at, dot);
      assert EmailSplit(u, at, dot);
    }
    if EmailPattern(u) {
      var at: nat, dot: nat :| at < dot < |u| && EmailSplit(u, at, dot);
      assert EmailSplit(s, at, dot);
    }
  }

  /**
   * Upper-casing leaves no lower-case letter, changes nothing else, and keeps
   * each class of the address pattern and the two separators.
   */
  lemma UpperKeepsChars(s: string)
    ensures forall i :: 0 <= i < |s| ==>
      && !IsLower(Upper(s)[i])
      && (!IsLower(s[i]) ==> Upper(s)[i] == s[i])
      && (IsLower(s[i]) ==> IsUpper(Upper(s)[i]))
      && (IsLocalChar(Upper(s)[i]) <==> IsLocalChar(s[i]))
      && (IsDomainChar(Upper(s)[i]) <==> IsDomainChar(s[i]))
      && (IsLetter(Upper(s)[i]) <==> IsLetter(s[i]))
      && (Upper(s)[i] == '@' <==> s[i] == '@')
      && (Upper(s)[i] == '.' <==> s[i] == '.')
  {
  }

  // ----------------------------------------------------------------- password

  /** `.*` from the start can reach index `i`: no line terminator comes before it. */
  predicate Reachable(s: string, i: nat)
    requires i <= |s|
  {
    forall k :: 0 <= k < i ==> !IsLineTerminator(s[k])
  }

  /** `(?=.*[a-z])`, `(?=.*[A-Z])` or `(?=.*\d)` at the start of `s`. */
  predicate LookaheadFinds(s: string, p: char -> bool) {
    exists i: nat | i < |s| :: Reachable(s, i) && p(s[i])
  }

  /** `/^(?=.*[a-z])(?=.*[A-Z])(?=.*\d)/`: three lookaheads and nothing consumed. */
  predicate PasswordPattern(s: string) {
    LookaheadFinds(s, IsLower) && LookaheadFinds(s, IsUpper) && LookaheadFinds(s, IsDigit)
  }

  function ValidatePassword(value: string): (error: Option<string>)
    ensures error == None <==> |value| >= 8 && PasswordPattern(value)
    ensures error == Some(PasswordRequired) <==> value == ""
    ensures error == Some(PasswordTooShort) <==> 0 < |value| < 8
    ensures error == Some(PasswordTooWeak) <==> |value| >= 8 && !PasswordPattern(value)
  {
    if value == "" then Some(PasswordRequired)
    else if |value| < 8 then Some(PasswordTooShort)
    else if !PasswordPattern(value) then Some(PasswordTooWeak)
    else None
  }

  /**
   * On a single line the pattern asks exactly for a lower-case letter, an
   * upper-case letter and a digit somewhere.
   */
  lemma PasswordOnOneLine(s: string)
    requires forall k :: 0 <= k < |s| ==> !IsLineTerminator(s[k])
    ensures PasswordPattern(s) <==>
      && (exists i :: 0 <= i < |s| && IsLower(s[i]))
      && (exists i :: 0 <= i < |s| && IsUpper(s[i]))
      && (exists i :: 0 <= i < |s| && IsDigit(s[i]))
  {
    forall p: char -> bool ensures LookaheadFinds(s, p) <==> exists i :: 0 <= i < |s| && p(s[i]) {
      if exists i :: 0 <= i < |s| && p(s[i]) {
        var i :| 0 <= i < |s| && p(s[i]);
        assert Reachable(s, i);
      }
    }
  }

  /** The pattern only looks ahead: whatever follows an accepted password keeps it accepted. */
  lemma {:induction false} PasswordExtends(s: string, t: string)
    requires PasswordPattern(s)
    ensures PasswordPattern(s + t)
  {
    forall p: char -> bool | LookaheadFinds(s, p) ensures LookaheadFinds(s + t, p) {
      var i: nat :| i < |s| && Reachable(s, i) && p(s[i]);
      assert (s + t)[i] == s[i];
      assert Reachable(s + t, i) by {
        forall k | 0 <= k < i ensures !IsLineTerminator((s + t)[k]) {
          assert (s + t)[k] == s[k];
        }
      }
    }
  }

  // --------------------------------------------------------- confirm password

  /** `validate: value === formValues.password || "Passwords do not match"` after `required`. */
  function ValidateConfirmPassword(value: string, password: string): (error: Option<string>)
    ensures error == None <==> value != "" && value == password
    ensures error == Some(ConfirmRequired) <==> value == ""
    ensures error == Some(PasswordsDoNotMatch) <==> value != "" && value != password
  {
    if value == "" then Some(ConfirmRequired)
    else if value != password then Some(PasswordsDoNotMatch)
    else None
  }

  // -------------------------------------------------------------- whole form

  /** The registration form submits only when no field has an error. */
  predicate RegistrationAccepted(fullName: string, email: string, password: string, confirmPassword: string) {
    && ValidateFullName(fullName) == None
    && ValidateEmail(email) == None
    && ValidatePassword(password) == None
    && ValidateConfirmPassword(confirmPassword, password) == None
  }

  /** An accepted form's confirmation is a password of at least eight characters meeting the pattern. */
  lemma AcceptedConfirmationIsStrong(fullName: string, email: string, password: string, confirmPassword: string)
    requires RegistrationAccepted(fullName, email, password, confirmPassword)
    ensures confirmPassword == password && |confirmPassword| >= 8 && PasswordPattern(confirmPassword)
    ensures '@' in email
  {
    var at: nat, dot: nat :| at < dot < |email| && EmailSplit(email, at, dot);
    assert email[at] == '@';
  }

  /** "user@example.com" is an address; "user@example.c" is not: the suffix needs two letters. */
  lemma EmailExamples()
    ensures EmailPattern("user@example.com")
    ensures !EmailPattern("user@example.c")
  {
    EmailFromParts("user", "example", "com");
    assert "user" + "@" + "example" + "." + "com" == "user@example.com";
  }
}
