/**
 * The sign-in page: one form for both signing in and registering, the
 * redirect back to the page the user came from, and the error line.
 * The authentication call itself belongs to `AuthContext.AuthSession`; here
 * its outcome is a parameter.
 */
module Login {
  import opened Wrappers
  import opened Js
  import opened AuthContext

  /** The fields of the form, in the order the page declares them. */
  const FormKeys: set<string> := {"username", "email", "password", "city", "phone_number"}

  /** The form as the page first shows it: everything empty but the city. */
  const InitialForm: map<string, string> :=
    map["username" := "", "email" := "", "password" := "", "city" := "Delhi", "phone_number" := ""]

  /** The message shown when the call throws instead of answering. */
  const UnexpectedError: string := "An unexpected error occurred"

  /** `location.state?.from?.pathname || '/dashboard'`. */
  function RedirectTarget(fromPath: Option<string>): (r: string)
    ensures r != ""
    ensures TruthyText(fromPath) ==> r == fromPath.value
    ensures !TruthyText(fromPath) ==> r == "/dashboard"
  {
    OrElse(fromPath, "/dashboard")
  }

  /** The call the submit makes. */
  datatype AuthCall =
    | LoginCall(username: string, password: string)
    | RegisterCall(username: string, email: string, password: string, city: string, phoneNumber: string)

  /** Sign-in sends username and password; registration sends all five fields. */
  function CallOf(isLogin: bool, form: map<string, string>): (r: AuthCall)
    requires FormKeys <= form.Keys
    ensures r.LoginCall? <==> isLogin
    ensures r.username == form["username"] && r.password == form["password"]
    ensures r.RegisterCall? ==> r.email == form["email"] && r.city == form["city"] && r.phoneNumber == form["phone_number"]
  {
    if isLogin then LoginCall(form["username"], form["password"])
    else RegisterCall(form["username"], form["email"], form["password"], form["city"], form["phone_number"])
  }

  /** Editing a registration-only field does not change what signing in sends. */
  lemma SignInIgnoresRegistrationFields(form: map<string, string>, name: string, value: string)
    requires FormKeys <= form.Keys
    requires name in {"email", "city", "phone_number"}
    ensures CallOf(true, form[name := value]) == CallOf(true, form)
  {
  }

  /** Every field the page edits reaches the registration call unchanged. */
  lemma RegistrationCarriesEdit(form: map<string, string>, name: string, value: string)
    requires FormKeys <= form.Keys && name in FormKeys
    ensures var c := CallOf(false, form[name := value]);
            match name
            case "username" => c.username == value
            case "email" => c.email == value
            case "password" => c.password == value
            case "city" => c.city == value
            case _ => c.phoneNumber == value
  {
  }

  class LoginPage {
    var isLogin: bool
    var formData: map<string, string>
    var error: string
    var isLoading: bool
    /** Where a successful sign-in goes. */
    const from: string

    /** Every field of the form has a value. */
    predicate Valid()
      reads this
    {
      FormKeys <= formData.Keys
    }

    constructor(fromPath: Option<string>)
      ensures Valid()
      ensures isLogin && formData == InitialForm && error == "" && !isLoading
      ensures from == RedirectTarget(fromPath)
    {
      isLogin, formData, error, isLoading := true, InitialForm, "", false;
      from := RedirectTarget(fromPath);
    }

    /** `handleChange`: only the named field changes, and the error line clears. */
    method HandleChange(name: string, value: string)
      requires Valid()
      modifies this
      ensures Valid()
      ensures formData == old(formData)[name := value]
      ensures error == ""
      ensures isLogin == old(isLogin) && isLoading == old(isLoading)
    {
      formData := formData[name := value];
      error := "";
    }

    /** The first half of `handleSubmit`: loading starts, the error clears, the call goes out. */
    method BeginSubmit() returns (call: AuthCall)
      requires Valid()
      modifies this
      ensures Valid()
      ensures call == CallOf(isLogin, formData)
      ensures isLoading && error == ""
      ensures isLogin == old(isLogin) && formData == old(formData)
    {
      isLoading := true;
      error := "";
      call := CallOf(isLogin, formData);
    }

    /**
     * The second half of `handleSubmit`: `outcome` is the call's result,
     * `None` when it threw.  Success navigates to `from`, replacing the
     * history entry; otherwise the error line shows why.  Loading ends either way.
     */
    method FinishSubmit(outcome: Option<AuthResult>) returns (navigateTo: Option<string>)
      requires Valid()
      modifies this
      ensures Valid()
      ensures navigateTo.Some? <==> outcome == Some(Succeeded)
      ensures navigateTo.Some? ==> navigateTo.value == from && error == old(error)
      ensures outcome.Some? && outcome.value.Refused? ==> error == outcome.value.error
      ensures outcome.None? ==> error == UnexpectedError
      ensures !isLoading
      ensures isLogin == old(isLogin) && formData == old(formData)
    {
      navigateTo := None;
      match outcome {
        case Some(Succeeded) =>
          navigateTo := Some(from);
        case Some(Refused(e)) =>
          error := e;
        case None =>
          error := UnexpectedError;
      }
      isLoading := false;
    }

    /** The link under the form switches between signing in and registering. */
    method Toggle()
      requires Valid()
      modifies this
      ensures Valid()
      ensures isLogin == !old(isLogin)
      ensures formData == old(formData) && error == old(error) && isLoading == old(isLoading)
    {
      isLogin := !isLogin;
    }
  }
}
