/** The login form's schema and default values (src/pages/auth/login/index.tsx). */
module LoginForm {
  import opened Forms

  datatype Values = Values(email: string, password: string)

  const DefaultValues := Values("", "")

  /** Every issue the schema reports for `v`. */
  function Issues(v: Values, isEmail: string -> bool): (r: set<Issue>)
    ensures forall i | i in r :: i.path == "email" || i.path == "password"
  {
    MinLength("email", v.email, 1, "Email is required") + EmailFormat("email", v.email, isEmail)
    + MinLength("password", v.password, 1, "Password is required")
  }

  /** The form is accepted exactly for a non-empty email in email format and a non-empty password. */
  lemma Accepted(v: Values, isEmail: string -> bool)
    ensures Issues(v, isEmail) == {} <==> v.email != "" && isEmail(v.email) && v.password != ""
  {
    if Issues(v, isEmail) == {} {
      assert MinLength("email", v.email, 1, "Email is required") <= Issues(v, isEmail);
      assert EmailFormat("email", v.email, isEmail) <= Issues(v, isEmail);
      assert MinLength("password", v.password, 1, "Password is required") <= Issues(v, isEmail);
    }
  }

  /** An empty field reports its own message. */
  lemma RequiredMessages(v: Values, isEmail: string -> bool)
    ensures v.email == "" ==> Issue("email", "Email is required") in Issues(v, isEmail)
    ensures v.password == "" ==> Issue("password", "Password is required") in Issues(v, isEmail)
    ensures v.password != "" ==> forall i | i in Issues(v, isEmail) :: i.path == "email"
  {
  }

  /** The initial values fail on both fields. */
  lemma DefaultsRejected(isEmail: string -> bool)
    ensures Issue("email", "Email is required") in Issues(DefaultValues, isEmail)
    ensures Issue("password", "Password is required") in Issues(DefaultValues, isEmail)
  {
  }
}
