/**
 * The login and registration forms: the schema checks on their input, and the alert and
 * navigation each submission ends in.
 */
module Forms {
  import opened Common
  import opened UserStore

  /** A schema complaint about one input field. */
  datatype Complaint = NameTooShort | AgeTooLow | AgeTooHigh | UsernameTooShort | PasswordTooShort

  /** The form fields the schemas check. */
  datatype FormField = Name | Age | Username | Password

  /** The field a complaint is shown under. */
  function Field(c: Complaint): FormField
  {
    match c
    case NameTooShort => Name
    case AgeTooLow => Age
    case AgeTooHigh => Age
    case UsernameTooShort => Username
    case PasswordTooShort => Password
  }

  /** The message the schema attaches to a complaint. */
  function Message(c: Complaint): string
  {
    match c
    case NameTooShort => "O nome deve ter pelo menos 3 caracteres."
    case AgeTooLow => "A idade mínima é 5 anos."
    case AgeTooHigh => "A idade máxima é 12 anos."
    case UsernameTooShort => "O nome de usuário deve ter pelo menos 3 caracteres."
    case PasswordTooShort => "A senha deve ter pelo menos 4 caracteres."
  }

  /** Different complaints show different texts, so each text tells its complaint apart. */
  lemma MessagesDistinct(c: Complaint, d: Complaint)
    requires c != d
    ensures Message(c) != Message(d)
  {
  }

  /** No two complaints of a list are about the same field. */
  predicate OnePerField(errs: seq<Complaint>)
  {
    forall i, j :: 0 <= i < j < |errs| ==> Field(errs[i]) != Field(errs[j])
  }

  /** The name and age complaints joined with the username and password complaints keep one
      complaint per field. */
  lemma JoinOnePerField(a: seq<Complaint>, b: seq<Complaint>)
    requires OnePerField(a) && OnePerField(b)
    requires forall x :: x in a ==> x == NameTooShort || x == AgeTooLow || x == AgeTooHigh
    requires forall y :: y in b ==> y == UsernameTooShort || y == PasswordTooShort
    ensures OnePerField(a + b)
  {
    forall i, j | 0 <= i < j < |a + b|
      ensures Field((a + b)[i]) != Field((a + b)[j])
    {
      if j < |a| {
      } else if i < |a| {
        assert (a + b)[i] in a && (a + b)[j] in b;
      } else {
        assert (a + b)[i] == b[i - |a|] && (a + b)[j] == b[j - |a|];
      }
    }
  }

  /** `loginSchema`: a username of at least 3 characters and a password of at least 4. */
  predicate LoginValid(username: string, password: string)
  {
    |username| >= 3 && |password| >= 4
  }

  /** `registerSchema`: a name of at least 3 characters, an age from 5 to 12, a username of at
      least 3 characters and a password of at least 4. */
  predicate RegisterValid(name: string, age: int, username: string, password: string)
  {
    |name| >= 3 && 5 <= age <= 12 && |username| >= 3 && |password| >= 4
  }

  /** Whatever the registration form accepts, the login form accepts for the same account. */
  lemma RegisteredCanLogIn(name: string, age: int, username: string, password: string)
    requires RegisterValid(name, age, username, password)
    ensures LoginValid(username, password)
  {
  }

  /** The complaints of `loginSchema`, field by field in form order. */
  function LoginErrors(username: string, password: string): (errs: seq<Complaint>)
    ensures errs == [] <==> LoginValid(username, password)
    ensures UsernameTooShort in errs <==> |username| < 3
    ensures PasswordTooShort in errs <==> |password| < 4
    ensures forall e :: e in errs ==> e == UsernameTooShort || e == PasswordTooShort
  {
    (if |username| < 3 then [UsernameTooShort] else [])
    + (if |password| < 4 then [PasswordTooShort] else [])
  }

  /** The login form shows at most one complaint under each field. */
  lemma LoginErrorsOnePerField(username: string, password: string)
    ensures OnePerField(LoginErrors(username, password))
  {
  }

  /** The complaints of `registerSchema`, field by field in form order. */
  function RegisterErrors(name: string, age: int, username: string, password: string): (errs: seq<Complaint>)
    ensures errs == [] <==> RegisterValid(name, age, username, password)
    ensures NameTooShort in errs <==> |name| < 3
    ensures AgeTooLow in errs <==> age < 5
    ensures AgeTooHigh in errs <==> age > 12
    ensures !(AgeTooLow in errs && AgeTooHigh in errs)
    ensures UsernameTooShort in errs <==> |username| < 3
    ensures PasswordTooShort in errs <==> |password| < 4
  {
    (if |name| < 3 then [NameTooShort] else [])
    + (if age < 5 then [AgeTooLow] else [])
    + (if age > 12 then [AgeTooHigh] else [])
    + LoginErrors(username, password)
  }

  /** The registration form shows at most one complaint under each field. */
  lemma RegisterErrorsOnePerField(name: string, age: int, username: string, password: string)
    ensures OnePerField(RegisterErrors(name, age, username, password))
  {
    var personal := (if |name| < 3 then [NameTooShort] else [])
      + (if age < 5 then [AgeTooLow] else [])
      + (if age > 12 then [AgeTooHigh] else []);
    assert RegisterErrors(name, age, username, password) == personal + LoginErrors(username, password);
    LoginErrorsOnePerField(username, password);
    JoinOnePerField(personal, LoginErrors(username, password));
  }

  datatype AlertType = Success | Error

  datatype Alert = Alert(kind: AlertType, message: string)

  /** An alert, whether the page goes on to the menu, and whether the alert is later
      cleared. */
  datatype Outcome = Outcome(alert: Alert, goToMenu: bool, clearAlert: bool)

  const LoginWelcome: string := "Uhuuul! Você entrou no mundo da matemática! 🎉"
  const LoginRejected: string := "Ops! Nome de usuário ou senha incorretos."
  const RegisterWelcome: string := "Bem-vindo(a) à turma da matemática! Agora você pode entrar e se divertir! 🎮"
  const UsernameInUse: string := "Ops! Este nome de usuário já está sendo usado. Tente outro."

  /** `onLoginSubmit` after `login`: success goes on to the menu, failure shows an error
      that is cleared later. */
  function LoginOutcome(sucesso: bool): (o: Outcome)
    ensures o.alert.kind == Success <==> sucesso
    ensures o.goToMenu <==> sucesso
    ensures o.clearAlert <==> !sucesso
    ensures o.alert.message == (if sucesso then LoginWelcome else LoginRejected)
  {
    if sucesso then Outcome(Alert(Success, LoginWelcome), true, false)
    else Outcome(Alert(Error, LoginRejected), false, true)
  }

  /** `onRegisterSubmit` after `registrar`: the same shape, with the registration messages. */
  function RegisterOutcome(sucesso: bool): (o: Outcome)
    ensures o.alert.kind == Success <==> sucesso
    ensures o.goToMenu <==> sucesso
    ensures o.clearAlert <==> !sucesso
    ensures o.alert.message == (if sucesso then RegisterWelcome else UsernameInUse)
  {
    if sucesso then Outcome(Alert(Success, RegisterWelcome), true, false)
    else Outcome(Alert(Error, UsernameInUse), false, true)
  }

  /**
   * Submitting the login form: with input the schema rejects, nothing is submitted and the
   * store is untouched; otherwise the outcome is a success exactly when the stored list
   * holds that username and password, and the store is as `login` leaves it.
   */
  method SubmitLogin(store: Store, username: string, password: string) returns (o: Option<Outcome>)
    requires store.Valid()
    modifies store
    ensures store.Valid()
    ensures !LoginValid(username, password) ==> o.None? && unchanged(store)
    ensures LoginValid(username, password) ==>
      (o.Some? && (o.value.alert.kind == Success <==> (old(store.usuarios).Present? &&
         exists i :: 0 <= i < |old(store.usuarios).value| && Matches(old(store.usuarios).value[i], username, password))))
    ensures o.Some? ==> o == Some(LoginOutcome(o.value.alert.kind == Success))
    ensures o.Some? ==> store.LoginDone(username, password, o.value.alert.kind == Success)
    ensures old(store.Synced()) ==> store.Synced()
  {
    if !LoginValid(username, password) {
      return None;
    }
    var ok := store.Login(username, password);
    o := Some(LoginOutcome(ok));
  }

  /**
   * Submitting the registration form: with input the schema rejects, nothing is submitted
   * and the store is untouched; otherwise the outcome is a success exactly when the
   * username is not already in a readable stored list, and the store is as `registrar`
   * leaves it. The id stands for the clock reading the source uses.
   */
  method SubmitRegister(store: Store, name: string, age: int, username: string, password: string, id: string)
    returns (o: Option<Outcome>)
    requires store.Valid()
    modifies store
    ensures store.Valid()
    ensures !RegisterValid(name, age, username, password) ==> o.None? && unchanged(store)
    ensures RegisterValid(name, age, username, password) ==>
      (o.Some? && (o.value.alert.kind == Success <==>
         !(old(store.usuarios).Present? && UsernameTaken(old(store.usuarios).value, username))))
    ensures o.Some? ==> o == Some(RegisterOutcome(o.value.alert.kind == Success))
    ensures o.Some? ==> store.RegisterDone(name, age, username, password, id, o.value.alert.kind == Success)
    ensures old(store.Synced()) && IdFree(old(store.usuarios), id) ==> store.Synced()
  {
    if !RegisterValid(name, age, username, password) {
      return None;
    }
    var ok := store.Registrar(name, age, username, password, id);
    o := Some(RegisterOutcome(ok));
  }
}
