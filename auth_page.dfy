/** The login and registration page: the form, and its submit handler around the session
    store's `login` and `register`. */
module AuthPage {
  import opened Base
  import opened Js
  import opened ApiClient
  import opened Session

  datatype Mode = LoginMode | RegisterMode

  /** The form's inputs, as `handleChange` addresses them by name. */
  datatype Field = EmailField | PasswordField | NameField | ConfirmPasswordField

  /** What a `catch` can receive: an `Error` with its message, or any other thrown value. */
  datatype Thrown = ErrorValue(message: string) | NonError

  const PasswordMismatch: string := "Passwords do not match"
  const GenericError: string := "An error occurred"
  const AccountCreated: string := "Account created successfully!"
  const LoggedIn: string := "Logged in successfully!"
  const HomePath: string := "/"

  /** The message shown for a caught value: an `Error`'s own message, else the generic text. */
  function ErrorMessage(t: Thrown): (r: string)
    ensures t.ErrorValue? ==> r == t.message
    ensures t.NonError? ==> r == GenericError
  {
    match t
    case ErrorValue(m) => m
    case NonError => GenericError
  }

  function SuccessText(mode: Mode): string {
    if mode == RegisterMode then AccountCreated else LoggedIn
  }

  function CallFor(mode: Mode, email: string, password: string, name: string): (r: Call)
    ensures r.Login? || r.Register?
  {
    if mode == RegisterMode then Register(email, password, name) else Login(email, password)
  }

  class AuthView {
    var email: string
    var password: string
    var name: string
    var confirmPassword: string
    var isLoading: bool
    var error: string
    const mode: Mode
    const session: SessionStore

    constructor(mode: Mode, session: SessionStore)
      ensures email == "" && password == "" && name == "" && confirmPassword == ""
      ensures !isLoading && error == ""
      ensures this.mode == mode && this.session == session
    {
      email := "";
      password := "";
      name := "";
      confirmPassword := "";
      isLoading := false;
      error := "";
      this.mode := mode;
      this.session := session;
    }

    /** `handleChange`: the named input takes the value, the others keep theirs. */
    method HandleChange(field: Field, value: string)
      modifies this
      ensures email == (if field == EmailField then value else old(email))
      ensures password == (if field == PasswordField then value else old(password))
      ensures name == (if field == NameField then value else old(name))
      ensures confirmPassword == (if field == ConfirmPasswordField then value else old(confirmPassword))
      ensures isLoading == old(isLoading) && error == old(error)
    {
      match field
      case EmailField => email := value;
      case PasswordField => password := value;
      case NameField => name := value;
      case ConfirmPasswordField => confirmPassword := value;
    }

    /** `handleSubmit`: clears the error; in register mode, mismatched passwords fail before any
        request; otherwise logs in or registers, and on success toasts and navigates home; a failure
        is shown as the error and toasted. Loading ends false on every path. */
    method HandleSubmit()
      modifies this, session, session.browser
      ensures !isLoading
      ensures email == old(email) && password == old(password) && name == old(name)
      ensures confirmPassword == old(confirmPassword)
      ensures mode == RegisterMode && password != confirmPassword ==>
                error == PasswordMismatch
                && session.auth == old(session.auth) && session.isAdmin == old(session.isAdmin)
                && session.browser.st == old(session.browser.st).(toasts := old(session.browser.st.toasts) + [Toast(PasswordMismatch, Error)])
      ensures !(mode == RegisterMode && password != confirmPassword) ==>
                var (st, auth, admin, outcome) :=
                  SignedIn(session.browser, old(session.browser.st), CallFor(mode, email, password, name),
                           old(session.auth), old(session.isAdmin), session.decode, session.parse, session.stringify);
                session.auth == auth && session.isAdmin == admin
                && (outcome.Resolved? ==>
                      error == ""
                      && session.browser.st == st.(toasts := st.toasts + [Toast(SuccessText(mode), Success)],
                                                   visited := st.visited + [HomePath]))
                && (outcome.Failed? ==>
                      error == outcome.failure.message
                      && session.browser.st == st.(toasts := st.toasts + [Toast(outcome.failure.message, Error)]))
    {
      error := "";
      isLoading := true;
      var thrown: Option<Thrown> := None;
      if mode == RegisterMode {
        if password != confirmPassword {
          thrown := Some(ErrorValue(PasswordMismatch));
        } else {
          var r := session.Register(email, password, name);
          if r.Failed? {
            thrown := Some(ErrorValue(r.failure.message));
          }
        }
      } else {
        var r := session.Login(email, password);
        if r.Failed? {
          thrown := Some(ErrorValue(r.failure.message));
        }
      }
      if thrown.None? {
        session.browser.ShowToast(Toast(SuccessText(mode), Success));
        session.browser.Navigate(HomePath);
      } else {
        var message := ErrorMessage(thrown.value);
        error := message;
        session.browser.ShowToast(Toast(message, Error));
      }
      isLoading := false;
    }
  }
}
