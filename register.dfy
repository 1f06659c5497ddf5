/** The registration form's checks, run in order before an account is requested. */
module Register {
  import opened Wrappers
  import opened Text

  const NameError: string := "Please enter your name."
  const EmailError: string := "Please enter your email."
  const PasswordLengthError: string := "Password must be at least 6 characters."
  const PasswordMismatchError: string := "Passwords do not match."

  /** The shortest password accepted. */
  const MinPasswordLength: nat := 6

  /**
   * `validate()`: the message of the first failing check, or None when all pass.
   * Name and email are trimmed before the emptiness test; the password is not.
   */
  function Validate(fullName: string, email: string, password: string, confirmPassword: string): (r: Option<string>)
    ensures r.None? <==> && !IsBlank(fullName) && !IsBlank(email)
                         && |password| >= MinPasswordLength && password == confirmPassword
    ensures r == Some(NameError) <==> IsBlank(fullName)
    ensures r == Some(EmailError) <==> !IsBlank(fullName) && IsBlank(email)
    ensures r == Some(PasswordLengthError) <==>
              !IsBlank(fullName) && !IsBlank(email) && |password| < MinPasswordLength
    ensures r == Some(PasswordMismatchError) <==>
              && !IsBlank(fullName) && !IsBlank(email) && |password| >= MinPasswordLength
              && password != confirmPassword
  {
    if IsBlank(fullName) then Some(NameError)
    else if IsBlank(email) then Some(EmailError)
    else if |password| < MinPasswordLength then Some(PasswordLengthError)
    else if password != confirmPassword then Some(PasswordMismatchError)
    else None
  }

  /** A name of nothing but whitespace is refused whatever the other fields hold. */
  lemma WhitespaceNameRefused(fullName: string, email: string, password: string, confirmPassword: string)
    requires forall i :: 0 <= i < |fullName| ==> IsWhitespace(fullName[i])
    ensures Validate(fullName, email, password, confirmPassword) == Some(NameError)
  {
    BlankIffAllWhitespace(fullName);
  }

  /** The password is not trimmed: six spaces are a valid password. */
  lemma SixSpacesAccepted(fullName: string, email: string)
    requires !IsBlank(fullName) && !IsBlank(email)
    ensures Validate(fullName, email, "      ", "      ") == None
  {
  }
}
