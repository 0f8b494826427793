/**
 * The login/registration form of src/components/LoginForm.tsx as a state
 * machine over {isLogin, formData, error, loading}.
 *
 * handleSubmit runs in two steps around its `await`: BeginSubmit is the part
 * before the callback settles and returns the callback request it makes (if
 * any); FinishSubmit takes what the awaited callback produced (true, false
 * or a thrown exception) and runs the rest, including the `finally`.
 */
module LoginForm {
  import opened Wrappers

  datatype FormData = FormData(username: string, password: string, email: string)

  /** The `name` attributes of the form's three inputs. */
  datatype Field = UsernameField | PasswordField | EmailField

  /** A call of onLogin or onRegister with the form's values. */
  datatype Request =
    | LoginRequest(username: string, password: string)
    | RegisterRequest(username: string, password: string, email: string)

  /** How the awaited callback settled. */
  datatype Reply = Succeeded | Failed | Threw

  const InvalidCredentials: string := "Invalid username or password"
  const EmailRequired: string := "Email is required for registration"
  const UsernameTaken: string := "Username already exists"
  const GenericError: string := "An error occurred. Please try again."

  function FieldValue(f: FormData, field: Field): string
  {
    match field
    case UsernameField => f.username
    case PasswordField => f.password
    case EmailField => f.email
  }

  /** `{ ...prev, [name]: value }`: the named field takes the value and the others keep theirs. */
  function WithField(f: FormData, field: Field, value: string): (r: FormData)
    ensures FieldValue(r, field) == value
    ensures forall other: Field :: other != field ==> FieldValue(r, other) == FieldValue(f, other)
  {
    match field
    case UsernameField => f.(username := value)
    case PasswordField => f.(password := value)
    case EmailField => f.(email := value)
  }

  /** The callback a submit makes: login in login mode, register in register mode when an email is given. */
  function RequestFor(isLogin: bool, f: FormData): Option<Request>
  {
    if isLogin then Some(LoginRequest(f.username, f.password))
    else if f.email == "" then None
    else Some(RegisterRequest(f.username, f.password, f.email))
  }

  /** The message a settled callback leaves; a success leaves the cleared message. */
  function ErrorAfter(isLogin: bool, reply: Reply): string
  {
    match reply
    case Succeeded => ""
    case Failed => if isLogin then InvalidCredentials else UsernameTaken
    case Threw => GenericError
  }

  /** Each way a submit can end shows a different message, so the message tells them apart. */
  lemma ErrorsAreDistinct(isLogin: bool, reply: Reply, isLogin': bool, reply': Reply)
    requires ErrorAfter(isLogin, reply) == ErrorAfter(isLogin', reply')
    ensures reply == reply'
    ensures reply == Failed ==> isLogin == isLogin'
  {
    assert InvalidCredentials[0] != UsernameTaken[0] && UsernameTaken[0] != GenericError[0];
    assert InvalidCredentials[0] != GenericError[0];
  }

  class LoginFormState {
    var isLogin: bool
    var formData: FormData
    var error: string
    var loading: bool

    constructor ()
      ensures isLogin && formData == FormData("", "", "") && error == "" && !loading
    {
      isLogin := true;
      formData := FormData("", "", "");
      error := "";
      loading := false;
    }

    /** The Login and Register tabs. */
    method SetMode(login: bool)
      modifies this
      ensures isLogin == login
      ensures formData == old(formData) && error == old(error) && loading == old(loading)
    {
      isLogin := login;
    }

    /** handleInputChange: one field of formData changes and any error is cleared. */
    method HandleInputChange(field: Field, value: string)
      modifies this
      ensures formData == WithField(old(formData), field, value)
      ensures error == ""
      ensures isLogin == old(isLogin) && loading == old(loading)
    {
      formData := WithField(formData, field, value);
      if error != "" {
        error := "";
      }
    }

    /** handleSubmit up to the `await`: clear the error, start loading, check the email, make the request. */
    method BeginSubmit() returns (request: Option<Request>)
      modifies this
      ensures request == RequestFor(isLogin, formData)
      ensures request.Some? ==> error == "" && loading
      ensures request.None? ==> error == EmailRequired && !loading
      ensures isLogin == old(isLogin) && formData == old(formData)
    {
      error := "";
      loading := true;
      if isLogin {
        request := Some(LoginRequest(formData.username, formData.password));
      } else {
        if formData.email == "" {
          error := EmailRequired;
          loading := false;
          return None;
        }
        request := Some(RegisterRequest(formData.username, formData.password, formData.email));
      }
    }

    /** handleSubmit after the `await`: report a failure or an exception, then the `finally`. */
    method FinishSubmit(reply: Reply)
      modifies this
      ensures error == if reply == Succeeded then old(error) else ErrorAfter(isLogin, reply)
      ensures !loading
      ensures isLogin == old(isLogin) && formData == old(formData)
    {
      match reply {
        case Succeeded =>
        case Failed =>
          error := if isLogin then InvalidCredentials else UsernameTaken;
        case Threw =>
          error := GenericError;
      }
      loading := false;
    }

    /** The whole of handleSubmit, given how the callback would settle. */
    method HandleSubmit(reply: Reply) returns (request: Option<Request>)
      modifies this
      ensures request == RequestFor(old(isLogin), old(formData))
      ensures request.Some? ==> error == ErrorAfter(isLogin, reply)
      ensures request.None? ==> error == EmailRequired
      ensures !loading
      ensures isLogin == old(isLogin) && formData == old(formData)
    {
      request := BeginSubmit();
      if request.Some? {
        FinishSubmit(reply);
      }
    }
  }
}
