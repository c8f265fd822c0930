/**
 * The registration form: editing its fields and the password checks made
 * before the account is created.
 */
module Register {
  import opened Optional
  import opened Server
  import opened Strings

  datatype RegisterForm = RegisterForm(username: string, email: string, password: string, confirmPassword: string)

  /** The form's inputs, by their `name` attribute. */
  datatype Field = Username | Email | Password | ConfirmPassword

  datatype RegisterPage = RegisterPage(form: RegisterForm, error: string)

  const InitialPage := RegisterPage(RegisterForm("", "", "", ""), "")

  /** The shortest password accepted. */
  const MinPasswordLength := 6

  /** What is wrong with a new password and its confirmation, mismatch being looked at first. */
  datatype PasswordProblem = Mismatch | TooShort

  function PasswordCheck(password: string, confirm: string): (r: Option<PasswordProblem>)
    ensures r == Some(Mismatch) <==> password != confirm
    ensures r == Some(TooShort) <==> password == confirm && |password| < MinPasswordLength
    ensures r == None <==> password == confirm && |password| >= MinPasswordLength
  {
    if password != confirm then Some(Mismatch)
    else if |password| < MinPasswordLength then Some(TooShort)
    else None
  }

  /** `handleChange`: only the named field takes the value, and the error is cleared. */
  function HandleChange(page: RegisterPage, field: Field, value: string): (r: RegisterPage)
    ensures r.error == ""
    ensures field == Username ==> r.form == page.form.(username := value)
    ensures field == Email ==> r.form == page.form.(email := value)
    ensures field == Password ==> r.form == page.form.(password := value)
    ensures field == ConfirmPassword ==> r.form == page.form.(confirmPassword := value)
  {
    var form := match field
      case Username => page.form.(username := value)
      case Email => page.form.(email := value)
      case Password => page.form.(password := value)
      case ConfirmPassword => page.form.(confirmPassword := value);
    RegisterPage(form, "")
  }

  function ProblemMessage(problem: PasswordProblem): string {
    match problem
    case Mismatch => "Passwords do not match"
    case TooShort => "Password must be at least 6 characters"
  }

  /** The account request: username, e-mail and password. */
  datatype Registration = Registration(username: string, email: string, password: string)

  /** A submit's result: the new page, the request sent if any, and whether the user went to the home page. */
  datatype Submitted = Submitted(page: RegisterPage, sent: Option<Registration>, toHome: bool)

  /** `handleSubmit`. */
  function HandleSubmit(page: RegisterPage, reply: Reply<()>): (r: Submitted)
    ensures r.page.form == page.form
    ensures r.sent.Some? <==> PasswordCheck(page.form.password, page.form.confirmPassword) == None
    ensures r.sent.Some? ==> r.sent.value == Registration(page.form.username, page.form.email, page.form.password)
    ensures r.toHome <==> r.sent.Some? && reply.Ok?
    ensures PasswordCheck(page.form.password, page.form.confirmPassword).Some? ==>
      r.page.error == ProblemMessage(PasswordCheck(page.form.password, page.form.confirmPassword).value)
    ensures r.sent.Some? && reply.Ok? ==> r.page.error == ""
    ensures r.sent.Some? && reply.Failed? ==> r.page.error == OrElse(reply.message, "Registration failed")
  {
    var problem := PasswordCheck(page.form.password, page.form.confirmPassword);
    if problem.Some? then Submitted(page.(error := ProblemMessage(problem.value)), None, false)
    else
      var sent := Registration(page.form.username, page.form.email, page.form.password);
      match reply
      case Ok(_) => Submitted(page.(error := ""), Some(sent), true)
      case Failed(message) => Submitted(page.(error := OrElse(message, "Registration failed")), Some(sent), false)
  }

  /** Only a password that matches its confirmation and has at least six characters is ever sent. */
  lemma SentPasswordsAreValid(page: RegisterPage, reply: Reply<()>)
    requires HandleSubmit(page, reply).sent.Some?
    ensures HandleSubmit(page, reply).sent.value.password == page.form.confirmPassword
    ensures |HandleSubmit(page, reply).sent.value.password| >= MinPasswordLength
  {
  }

  /** A mismatch is reported even when the password is also too short. */
  lemma MismatchReportedFirst(page: RegisterPage, reply: Reply<()>)
    requires page.form.password != page.form.confirmPassword && |page.form.password| < MinPasswordLength
    ensures HandleSubmit(page, reply).page.error == "Passwords do not match"
  {
  }
}
