/**
 * The profile page's logic (src/pages/profile/index.tsx): the form schema and
 * its two password refinements, the form's initial values taken from the
 * stored session, and the submit handler, which builds the update payload,
 * sends it, and on success writes the merged user back into the session.
 *
 * The update call's outcome is a parameter: a function from the payload to
 * either a response value or a thrown error.
 */
module Profile {
  import opened Optional
  import opened JsValue
  import opened Forms
  import JsonCodec
  import TokenStorage

  // ---------------------------------------------------------------------------
  // The schema

  /** What the form submits; the two password fields are optional strings. */
  datatype Values = Values(
    username: string,
    name: string,
    lastName: string,
    email: string,
    password: Option<string>,
    confirmPassword: Option<string>)

  const MismatchMessage := "Passwords don't match"
  const ShortMessage := "Password must be at least 6 characters"
  const MinPassword := 6

  /** `data.password && data.password.length > 0` */
  predicate HasPassword(v: Values) {
    v.password.Some? && v.password.value != ""
  }

  function FieldIssues(v: Values, isEmail: string -> bool): set<Issue> {
    MinLength("username", v.username, 1, "Username is required")
    + MinLength("name", v.name, 1, "Name is required")
    + MinLength("lastName", v.lastName, 1, "Last name is required")
    + MinLength("email", v.email, 1, "Email is required") + EmailFormat("email", v.email, isEmail)
  }

  /** The first refinement: a given password must equal its confirmation. */
  function MatchIssues(v: Values): set<Issue> {
    if HasPassword(v) && v.password != v.confirmPassword then {Issue("confirmPassword", MismatchMessage)} else {}
  }

  /** The second refinement: a given password has at least six characters. */
  function LengthIssues(v: Values): set<Issue> {
    if HasPassword(v) && |v.password.value| < MinPassword then {Issue("password", ShortMessage)} else {}
  }

  /** Every issue the schema reports: the fields' and the two refinements'. */
  function Issues(v: Values, isEmail: string -> bool): (r: set<Issue>)
    ensures forall i | i in r ::
      i.path in {"username", "name", "lastName", "email", "password", "confirmPassword"}
  {
    FieldIssues(v, isEmail) + MatchIssues(v) + LengthIssues(v)
  }

  /** Each of the four text fields is required, with its own message. */
  lemma RequiredFields(v: Values, isEmail: string -> bool)
    ensures v.username == "" ==> Issue("username", "Username is required") in Issues(v, isEmail)
    ensures v.name == "" ==> Issue("name", "Name is required") in Issues(v, isEmail)
    ensures v.lastName == "" ==> Issue("lastName", "Last name is required") in Issues(v, isEmail)
    ensures v.email == "" ==> Issue("email", "Email is required") in Issues(v, isEmail)
  {
  }

  /** An empty or absent password passes both refinements, whatever the confirmation holds. */
  lemma NoPasswordNoRefinement(v: Values, isEmail: string -> bool)
    requires !HasPassword(v)
    ensures Issues(v, isEmail) == FieldIssues(v, isEmail)
    ensures forall i | i in Issues(v, isEmail) :: i.path != "password" && i.path != "confirmPassword"
  {
  }

  /** A given password that differs from the confirmation, or is short, fails on the field the refinement names. */
  lemma PasswordRefinements(v: Values, isEmail: string -> bool)
    requires HasPassword(v)
    ensures Issue("confirmPassword", MismatchMessage) in Issues(v, isEmail) <==> v.confirmPassword != v.password
    ensures Issue("password", ShortMessage) in Issues(v, isEmail) <==> |v.password.value| < MinPassword
  {
  }

  /** The form is accepted exactly when the four fields are filled, the email is well formed and a given password is confirmed and long enough. */
  lemma Accepted(v: Values, isEmail: string -> bool)
    ensures Issues(v, isEmail) == {} <==>
      v.username != "" && v.name != "" && v.lastName != "" && v.email != "" && isEmail(v.email)
      && (HasPassword(v) ==> v.confirmPassword == v.password && |v.password.value| >= MinPassword)
  {
    if Issues(v, isEmail) == {} {
      assert v.username != "" by { assert MinLength("username", v.username, 1, "Username is required") <= Issues(v, isEmail); }
      assert v.name != "" by { assert MinLength("name", v.name, 1, "Name is required") <= Issues(v, isEmail); }
      assert v.lastName != "" by { assert MinLength("lastName", v.lastName, 1, "Last name is required") <= Issues(v, isEmail); }
      assert v.email != "" by { assert MinLength("email", v.email, 1, "Email is required") <= Issues(v, isEmail); }
      assert isEmail(v.email) by { assert EmailFormat("email", v.email, isEmail) <= Issues(v, isEmail); }
      assert MatchIssues(v) <= Issues(v, isEmail) && LengthIssues(v) <= Issues(v, isEmail);
    }
  }

  // ---------------------------------------------------------------------------
  // Initial values

  /** `(user && typeof user === 'object' && 'user' in user) ? user.user : {}` */
  function UserData(user: Value): (d: Value)
    ensures user.Obj? && HasKey(user.fields, "user") ==> d == Member(user, "user")
    ensures !(user.Obj? && HasKey(user.fields, "user")) ==> d == Obj([])
  {
    if Truthy(user) && (user.Obj? || user.Arr?) && InOperator("user", user) == Some(true) then Member(user, "user")
    else Obj([])
  }

  /** The form's fields as the page holds them: whatever value an initial value or a reset puts there. */
  datatype FormValues = FormValues(
    username: Value,
    name: Value,
    lastName: Value,
    email: Value,
    password: Value,
    confirmPassword: Value)

  /** The form's initial values, and the values the effect resets it to. */
  function DefaultValues(userData: Value): (d: FormValues)
    ensures d.password == Str("") && d.confirmPassword == Str("")
    ensures Truthy(d.username) || d.username == Str("")
    ensures Truthy(d.name) || d.name == Str("")
    ensures Truthy(d.lastName) || d.lastName == Str("")
    ensures Truthy(d.email) || d.email == Str("")
  {
    FormValues(
      Or(Member(userData, "username"), Str("")),
      Or(Or(Member(userData, "name"), Member(userData, "firstName")), Str("")),
      Or(Member(userData, "lastName"), Str("")),
      Or(Member(userData, "email"), Str("")),
      Str(""),
      Str(""))
  }

  /**
   * The name comes from `name`, else `firstName`, else is empty; the password
   * fields start empty; a truthy stored username, last name or email is
   * prefilled as it is, and a falsy one becomes empty text.
   */
  lemma DefaultsFromSession(user: Value)
    ensures var ud := UserData(user); var d := DefaultValues(ud);
      d.password == Str("") && d.confirmPassword == Str("")
      && d.name == (if Truthy(Member(ud, "name")) then Member(ud, "name")
                    else if Truthy(Member(ud, "firstName")) then Member(ud, "firstName") else Str(""))
      && (Truthy(Member(ud, "username")) ==> d.username == Member(ud, "username"))
      && (!Truthy(Member(ud, "username")) ==> d.username == Str(""))
      && (Truthy(Member(ud, "lastName")) ==> d.lastName == Member(ud, "lastName"))
      && (!Truthy(Member(ud, "lastName")) ==> d.lastName == Str(""))
      && (Truthy(Member(ud, "email")) ==> d.email == Member(ud, "email"))
      && (!Truthy(Member(ud, "email")) ==> d.email == Str(""))
  {
  }

  /** Without a stored user every field starts empty. */
  lemma DefaultsWithoutSession()
    ensures DefaultValues(UserData(Null)) == FormValues(Str(""), Str(""), Str(""), Str(""), Str(""), Str(""))
  {
  }

  // ---------------------------------------------------------------------------
  // The update payload and the merged session

  /** The four profile fields of the payload. */
  function ProfileFields(v: Values): seq<Field> {
    [Field("username", Str(v.username)), Field("name", Str(v.name)),
     Field("lastName", Str(v.lastName)), Field("email", Str(v.email))]
  }

  /** `updateData`: the four profile fields, and the password when one is given. */
  function UpdateData(v: Values): (r: Value)
    ensures r.Obj? && |r.fields| == if HasPassword(v) then 5 else 4
    ensures forall i | 0 <= i < |r.fields| :: r.fields[i].val.Str?
  {
    var base := ProfileFields(v);
    NoPasswordKey(v);
    if HasPassword(v) then Obj(Assign(base, Field("password", Str(v.password.value)))) else Obj(base)
  }

  lemma NoPasswordKey(v: Values)
    ensures !HasKey(ProfileFields(v), "password")
  {
    var base := ProfileFields(v);
    forall i | 0 <= i < |base|
      ensures base[i].key != "password"
    {
    }
  }

  /** The payload always has the four profile fields, and a password exactly when one is given. */
  lemma UpdateDataFields(v: Values)
    ensures Member(UpdateData(v), "username") == Str(v.username)
    ensures Member(UpdateData(v), "name") == Str(v.name)
    ensures Member(UpdateData(v), "lastName") == Str(v.lastName)
    ensures Member(UpdateData(v), "email") == Str(v.email)
    ensures UpdateData(v).Obj? && (HasKey(UpdateData(v).fields, "password") <==> HasPassword(v))
    ensures HasPassword(v) ==> Member(UpdateData(v), "password") == Str(v.password.value)
  {
    var base := ProfileFields(v);
    NoPasswordKey(v);
    var fs := UpdateData(v).fields;
    var pw := Field("password", Str(if v.password.Some? then v.password.value else ""));
    LookupAssign(base, pw, "username");
    LookupAssign(base, pw, "name");
    LookupAssign(base, pw, "lastName");
    LookupAssign(base, pw, "email");
    LookupAssign(base, pw, "password");
    var three, two, one := base[..3], base[..3][..2], base[..3][..2][..1];
    assert three == [base[0], base[1], base[2]] && two == [base[0], base[1]] && one == [base[0]];
    assert Lookup(base, "name") == Lookup(three, "name") == Lookup(two, "name");
    assert Lookup(base, "username") == Lookup(three, "username") == Lookup(two, "username") == Lookup(one, "username");
  }

  /** `{...user, user: {...userData, ...data}}` */
  function MergedSession(user: Value, userData: Value, data: Value): (r: Value)
    ensures r.Obj? && HasKey(r.fields, "user") && Member(r, "user").Obj?
  {
    LookupAssign(Spread(user), Field("user", Obj(Overlay(Spread(userData), OwnProps(data)))), "user");
    Obj(Assign(Spread(user), Field("user", Obj(Overlay(Spread(userData), OwnProps(data))))))
  }

  /**
   * In the merged session, `user` holds the old user data with the response's
   * fields written over it (response fields win, other fields stay), and every
   * other top-level field of the old session is kept.
   */
  lemma MergeEffect(user: Value, userData: Value, data: Value, k: string)
    ensures var merged := MergedSession(user, userData, data);
      Member(merged, "user").Obj?
      && Member(Member(merged, "user"), k) ==
           (if HasKey(OwnProps(data), k) then Lookup(OwnProps(data), k) else Lookup(OwnProps(userData), k))
      && (HasKey(Member(merged, "user").fields, k) <==> HasKey(OwnProps(userData), k) || HasKey(OwnProps(data), k))
      && (k != "user" ==> Member(merged, k) == Lookup(OwnProps(user), k))
      && (HasKey(merged.fields, k) <==> HasKey(OwnProps(user), k) || k == "user")
  {
    var inner := Overlay(Spread(userData), OwnProps(data));
    LookupAssign(Spread(user), Field("user", Obj(inner)), "user");
    LookupAssign(Spread(user), Field("user", Obj(inner)), k);
    LookupSpread(user, k);
    LookupOverlay(Spread(userData), OwnProps(data), k);
    LookupSpread(userData, k);
  }

  // ---------------------------------------------------------------------------
  // Submitting

  /** How the update call ended: it returned a response value, or it threw. */
  datatype UpdateOutcome = Responded(response: Value) | Threw(error: Value)

  const FailedMessage := "Failed to update profile"
  const CatchMessage := "Something went wrong. Please try again."

  /** `response && response.status` */
  predicate Accepts(response: Value) {
    Truthy(response) && Truthy(Member(response, "status"))
  }

  /** `'data' in response && response.data`, asked of an accepted response. */
  predicate CarriesData(response: Value) {
    InOperator("data", response) == Some(true) && Truthy(Member(response, "data"))
  }

  /** The TypeError `"message" in response` throws for a primitive response (the wording of V8). */
  function InTypeError(response: Value): (e: Value)
    ensures Member(e, "message").Str? && Member(e, "message").s != ""
  {
    Obj([Field("message", Str("Cannot use 'in' operator to search for 'message' in " + ToString(response)))])
  }

  /** The error the catch block shows for a thrown error: `err?.message || ...`. */
  function CaughtMessage(error: Value): (r: Value)
    ensures Truthy(r)
    ensures r == Member(error, "message") || r == Str(CatchMessage)
  {
    Or(Member(error, "message"), Str(CatchMessage))
  }

  /** The error shown for a response that does not accept the update. */
  function RefusalMessage(response: Value): (r: Value)
    ensures Truthy(r)
    ensures r == Str(FailedMessage) || r == Member(response, "message") || r == Member(InTypeError(response), "message")
  {
    if !Truthy(response) then Or(Null, Str(FailedMessage))
    else
      match InOperator("message", response)
      case None => CaughtMessage(InTypeError(response))
      case Some(has) => Or(if has then Member(response, "message") else Null, Str(FailedMessage))
  }

  /** What a submit leaves behind. */
  datatype Effect = Effect(success: bool, error: Value, stored: Option<Value>, reset: bool)

  /** The effect of `onSubmit` for the session user `user` and the call's outcome. */
  function SubmitEffect(user: Value, outcome: UpdateOutcome): (e: Effect)
    ensures e.success <==> outcome.Responded? && Accepts(outcome.response)
    ensures e.reset == e.success
    ensures e.success ==> e.error == Null
    ensures !e.success ==> Truthy(e.error)
    ensures e.stored.Some? ==> e.success && CarriesData(outcome.response)
  {
    match outcome
    case Threw(err) => Effect(false, CaughtMessage(err), None, false)
    case Responded(response) =>
      if Accepts(response) then
        var stored := if CarriesData(response) then Some(MergedSession(user, UserData(user), Member(response, "data"))) else None;
        Effect(true, Null, stored, true)
      else Effect(false, RefusalMessage(response), None, false)
  }

  /** An accepted response with data stores the merged session; the read-back user is its JSON projection. */
  lemma AcceptedWithData(items: map<string, string>, user: Value, response: Value)
    requires Accepts(response) && Truthy(Member(response, "data"))
    ensures var e := SubmitEffect(user, Responded(response));
      var merged := MergedSession(user, UserData(user), Member(response, "data"));
      e.success && e.error == Null && e.reset && e.stored == Some(merged)
      && TokenStorage.UserIn(items[TokenStorage.UserKey := TokenStorage.StoredText(merged)]) == JsonCodec.Normalize(merged)
  {
    assert response.Obj?;
    if !HasKey(response.fields, "data") {
      LookupMissing(response.fields, "data");
    }
    TokenStorage.SetThenGet(items, MergedSession(user, UserData(user), Member(response, "data")));
  }

  /** A response that does not accept the update writes nothing and shows its `message`, else the fixed text. */
  lemma Refused(user: Value, response: Value)
    requires !Accepts(response)
    ensures var e := SubmitEffect(user, Responded(response));
      !e.success && e.stored == None && !e.reset
    ensures !Truthy(response) ==> SubmitEffect(user, Responded(response)).error == Str(FailedMessage)
    ensures response.Obj? ==> SubmitEffect(user, Responded(response)).error == Or(Member(response, "message"), Str(FailedMessage))
    ensures Truthy(response) && !(response.Obj? || response.Arr?) ==>
      SubmitEffect(user, Responded(response)).error == Member(InTypeError(response), "message")
  {
    if response.Obj? && !HasKey(response.fields, "message") {
      LookupMissing(response.fields, "message");
    }
  }

  /** A thrown error writes nothing and shows its message, else the catch-all text. */
  lemma Thrown(user: Value, err: Value)
    ensures SubmitEffect(user, Threw(err)) == Effect(false, Or(Member(err, "message"), Str(CatchMessage)), None, false)
  {
  }

  // ---------------------------------------------------------------------------
  // The page

  class ProfilePage {
    /** The session user read when the page rendered. */
    var user: Value
    var loading: bool
    var error: Value
    var success: bool
    var form: FormValues

    constructor (tokens: TokenStorage.TokenService)
      ensures user == TokenStorage.UserIn(tokens.storage)
      ensures form == DefaultValues(UserData(user))
      ensures !loading && error == Null && !success
    {
      var u := tokens.GetUser();
      user := u;
      loading := false;
      error := Null;
      success := false;
      form := DefaultValues(UserData(u));
    }

    /**
     * `onSubmit`: sends the payload, then applies the effect its outcome calls
     * for. The form library calls it only with values the schema accepts.
     */
    method OnSubmit(data: Values, isEmail: string -> bool, updateProfile: Value -> UpdateOutcome, tokens: TokenStorage.TokenService)
      requires Issues(data, isEmail) == {}
      modifies this, tokens
      ensures var e := SubmitEffect(user, updateProfile(UpdateData(data)));
        !loading && success == e.success && error == e.error
        && tokens.storage == (if e.stored.Some? then old(tokens.storage)[TokenStorage.UserKey := TokenStorage.StoredText(e.stored.value)] else old(tokens.storage))
        && form == (if e.reset then FormValues(Str(data.username), Str(data.name), Str(data.lastName), Str(data.email), Str(""), Str("")) else old(form))
      ensures user == old(user)
    {
      loading := true;
      error := Null;
      success := false;

      var fields := ProfileFields(data);
      if HasPassword(data) {
        fields := Assign(fields, Field("password", Str(data.password.value)));
      }
      var outcome := updateProfile(Obj(fields));

      match outcome {
        case Threw(err) =>
          error := CaughtMessage(err);
        case Responded(response) =>
          if Truthy(response) && Truthy(Member(response, "status")) {
            success := true;
            if InOperator("data", response) == Some(true) && Truthy(Member(response, "data")) {
              var updatedUser := MergedSession(user, UserData(user), Member(response, "data"));
              tokens.SetUser(updatedUser);
            }
            form := FormValues(Str(data.username), Str(data.name), Str(data.lastName), Str(data.email), Str(""), Str(""));
          } else if !Truthy(response) {
            error := Or(Null, Str(FailedMessage));
          } else {
            var has := InOperator("message", response);
            if has.None? {
              // the `in` operator threw a TypeError; the catch block takes over
              error := CaughtMessage(InTypeError(response));
            } else {
              error := Or(if has.value then Member(response, "message") else Null, Str(FailedMessage));
            }
          }
      }
      loading := false;
    }
  }
}
