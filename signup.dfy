/** The sign-up form's schema and default values (src/pages/auth/sign-up/index.tsx). */
module SignUpForm {
  import opened Forms

  datatype Values = Values(
    firstName: string,
    lastName: string,
    email: string,
    password: string,
    confirmPassword: string,
    agreeToTerms: bool)

  const DefaultValues := Values("", "", "", "", "", false)

  const TermsMessage := "You must agree to the terms and conditions"
  const MismatchMessage := "Passwords don't match"

  /** The issues of the object's own fields. */
  function FieldIssues(v: Values, isEmail: string -> bool): set<Issue> {
    MinLength("firstName", v.firstName, 1, "First name is required")
    + MinLength("lastName", v.lastName, 1, "Last name is required")
    + MinLength("email", v.email, 1, "Email is required") + EmailFormat("email", v.email, isEmail)
    + MinLength("password", v.password, 1, "Password is required")
    + MinLength("confirmPassword", v.confirmPassword, 1, "Please confirm your password")
    + (if v.agreeToTerms then {} else {Issue("agreeToTerms", TermsMessage)})
  }

  /** Every issue the schema reports: the fields' and the password-match refinement's. */
  function Issues(v: Values, isEmail: string -> bool): (r: set<Issue>)
    ensures forall i | i in r ::
      i.path in {"firstName", "lastName", "email", "password", "confirmPassword", "agreeToTerms"}
  {
    FieldIssues(v, isEmail)
    + (if v.password == v.confirmPassword then {} else {Issue("confirmPassword", MismatchMessage)})
  }

  /** The form is accepted exactly when every field is filled, the email well formed, the terms agreed and the passwords equal. */
  lemma Accepted(v: Values, isEmail: string -> bool)
    ensures Issues(v, isEmail) == {} <==>
      v.firstName != "" && v.lastName != "" && v.email != "" && isEmail(v.email)
      && v.password != "" && v.confirmPassword != "" && v.agreeToTerms && v.password == v.confirmPassword
  {
    if Issues(v, isEmail) == {} {
      assert v.firstName != "" by { assert MinLength("firstName", v.firstName, 1, "First name is required") <= Issues(v, isEmail); }
      assert v.lastName != "" by { assert MinLength("lastName", v.lastName, 1, "Last name is required") <= Issues(v, isEmail); }
      assert v.email != "" by { assert MinLength("email", v.email, 1, "Email is required") <= Issues(v, isEmail); }
      assert isEmail(v.email) by { assert EmailFormat("email", v.email, isEmail) <= Issues(v, isEmail); }
      assert v.password != "" by { assert MinLength("password", v.password, 1, "Password is required") <= Issues(v, isEmail); }
      assert v.confirmPassword != "" by {
        assert MinLength("confirmPassword", v.confirmPassword, 1, "Please confirm your password") <= Issues(v, isEmail);
      }
    }
  }

  /** Unchecked terms and unequal passwords each report their own message, on their own field. */
  lemma RefinementMessages(v: Values, isEmail: string -> bool)
    ensures !v.agreeToTerms ==> Issue("agreeToTerms", TermsMessage) in Issues(v, isEmail)
    ensures v.password != v.confirmPassword ==> Issue("confirmPassword", MismatchMessage) in Issues(v, isEmail)
    ensures v.firstName == "" ==> Issue("firstName", "First name is required") in Issues(v, isEmail)
    ensures v.lastName == "" ==> Issue("lastName", "Last name is required") in Issues(v, isEmail)
    ensures v.email == "" ==> Issue("email", "Email is required") in Issues(v, isEmail)
    ensures v.password == "" ==> Issue("password", "Password is required") in Issues(v, isEmail)
    ensures v.confirmPassword == "" ==> Issue("confirmPassword", "Please confirm your password") in Issues(v, isEmail)
  {
  }

  /** No length is asked of the password beyond one character. */
  lemma ShortPasswordAccepted(firstName: string, lastName: string, email: string, c: char, isEmail: string -> bool)
    requires firstName != "" && lastName != "" && email != "" && isEmail(email)
    ensures Issues(Values(firstName, lastName, email, [c], [c], true), isEmail) == {}
  {
    Accepted(Values(firstName, lastName, email, [c], [c], true), isEmail);
  }

  /** The initial values fail: every text field is required and the terms are unchecked. */
  lemma DefaultsRejected(isEmail: string -> bool)
    ensures Issues(DefaultValues, isEmail) >= {
      Issue("firstName", "First name is required"), Issue("lastName", "Last name is required"),
      Issue("email", "Email is required"), Issue("password", "Password is required"),
      Issue("confirmPassword", "Please confirm your password"), Issue("agreeToTerms", TermsMessage)}
  {
  }
}
