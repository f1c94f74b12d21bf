/** LocalStrategy.validate (src/infrastructure/common/strategy/local/local.strategy.ts):
 *  refuses a request whose email or password is missing, otherwise hands both
 *  to LoginUseCase.checkUser. */
module LocalStrategy {
  import opened Domain
  import opened Collaborators
  import Login
  import FindUserByEmail

  const Context := "LocalStrategy"
  const MissingMessage := "Email or password missing"
  /** Note: without the trailing period checkUser uses. */
  const InvalidCredentials := "Invalid credentials"

  /** `!email || !password`: an absent value and the empty string are both falsy. */
  predicate Missing(email: Option<string>, password: Option<string>)
    // what the guard lets through is two non-empty strings
    ensures !Missing(email, password) ==>
      email.Some? && password.Some? && |email.value| >= 1 && |password.value| >= 1
    ensures email.Some? && password.Some? && |email.value| >= 1 && |password.value| >= 1 ==>
      !Missing(email, password)
  {
    email == None || email == Some("") || password == None || password == Some("")
  }

  /** validate as written, given the store's findByEmail and the hasher's
   *  compare: present credentials go to checkUser as written. */
  function ValidateAsWrittenStep(email: Option<string>, password: Option<string>,
                                 findByEmail: string -> Reply<Option<UserModel>>,
                                 compare: (string, string) -> bool): (s: Step<UserModel>)
    // missing input: one warn, a 401, and checkUser is never reached
    ensures Missing(email, password) ==>
      && s.exit == Abort(UnauthorizedException, InvalidCredentials)
      && Calls(s.events) == []
      && Logs(s.events) == [LogEntry(Warn, Context, Plain(MissingMessage), None)]
    // both present: checkUser with the arguments unchanged, its outcome returned as it is
    ensures !Missing(email, password) ==>
      && |Calls(s.events)| >= 1 && Calls(s.events)[0] == StoreFindByEmail(email.value)
      && s == Login.CheckUserAsWrittenStep(email.value, password.value, findByEmail(email.value), compare)
    // a present but unknown email lets checkUser's TypeError out of validate
    ensures s.exit.Raise? <==> !Missing(email, password) && findByEmail(email.value) == Ok(None)
    ensures s.exit.Raise? ==> s.exit == Raise(Login.NullUser)
    // a request is let through exactly when the email is known and the password matches its hash
    ensures s.exit.Done? <==>
      && !Missing(email, password)
      && findByEmail(email.value).Ok? && findByEmail(email.value).value.Some?
      && compare(password.value, findByEmail(email.value).value.value.password)
    ensures s.exit.Done? ==> Logs(s.events) == []
  {
    if Missing(email, password) then
      var warned := Logged(LogEntry(Warn, Context, Plain(MissingMessage), None));
      OneEvent(warned);
      Step(Abort(UnauthorizedException, InvalidCredentials), [warned])
    else
      var checked := Login.CheckUserAsWrittenStep(email.value, password.value, findByEmail(email.value), compare);
      var lookup := FindUserByEmail.RunStep(email.value, findByEmail(email.value));
      if checked.exit.Done? then
        assert checked.events == lookup.events + checked.events[|lookup.events|..];
        LogsAppend(lookup.events, checked.events[|lookup.events|..]);
        checked
      else
        checked
  }

  /** validate with checkUser in its corrected form: an unknown email is
   *  refused like a wrong password. */
  function ValidateStep(email: Option<string>, password: Option<string>,
                        findByEmail: string -> Reply<Option<UserModel>>,
                        compare: (string, string) -> bool): (s: Step<UserModel>)
    // missing input: one warn, a 401, and checkUser is never reached
    ensures Missing(email, password) ==>
      && s.exit == Abort(UnauthorizedException, InvalidCredentials)
      && Calls(s.events) == []
      && Logs(s.events) == [LogEntry(Warn, Context, Plain(MissingMessage), None)]
    // both present: checkUser with the arguments unchanged, its outcome returned as it is
    ensures !Missing(email, password) ==>
      && |Calls(s.events)| >= 1 && Calls(s.events)[0] == StoreFindByEmail(email.value)
      && s == Login.CheckUserStep(email.value, password.value, findByEmail(email.value), compare)
    // a request is let through exactly when the email is known and the password matches its hash
    ensures s.exit.Done? <==>
      && !Missing(email, password)
      && findByEmail(email.value).Ok? && findByEmail(email.value).value.Some?
      && compare(password.value, findByEmail(email.value).value.value.password)
    // an accepted request logs nothing; no request ends in anything but an HttpException
    ensures s.exit.Done? ==> Logs(s.events) == []
    ensures !s.exit.Raise?
    // it differs from validate as written only for a present but unknown email
    ensures (Missing(email, password) || findByEmail(email.value) != Ok(None)) ==>
      s == ValidateAsWrittenStep(email, password, findByEmail, compare)
  {
    if Missing(email, password) then
      var warned := Logged(LogEntry(Warn, Context, Plain(MissingMessage), None));
      OneEvent(warned);
      Step(Abort(UnauthorizedException, InvalidCredentials), [warned])
    else
      Login.CheckUserStep(email.value, password.value, findByEmail(email.value), compare)
  }

  class LocalStrategy {
    const login: Login.LoginUseCase
    const logger: Logger

    ghost predicate Valid() {
      login.Valid() && login.logger.trace == logger.trace
    }

    constructor (login: Login.LoginUseCase, logger: Logger)
      requires login.Valid() && login.logger.trace == logger.trace
      ensures this.login == login && this.logger == logger && Valid()
    {
      this.login, this.logger := login, logger;
    }

    /** validate as the source has it. */
    method ValidateAsWritten(email: Option<string>, password: Option<string>) returns (r: Exit<UserModel>)
      requires Valid()
      modifies logger.trace
      ensures var s := ValidateAsWrittenStep(email, password, login.finder.store.answers.findByEmail, login.crypto.answers.compare);
        r == s.exit && logger.trace.events == old(logger.trace.events) + s.events
    {
      if Missing(email, password) {
        logger.Warn(Context, Plain(MissingMessage));
        r := Abort(UnauthorizedException, InvalidCredentials);
        return;
      }
      r := login.CheckUserAsWritten(email.value, password.value);
    }

    /** validate over the corrected checkUser. */
    method Validate(email: Option<string>, password: Option<string>) returns (r: Exit<UserModel>)
      requires Valid()
      modifies logger.trace
      ensures var s := ValidateStep(email, password, login.finder.store.answers.findByEmail, login.crypto.answers.compare);
        r == s.exit && logger.trace.events == old(logger.trace.events) + s.events
    {
      if Missing(email, password) {
        logger.Warn(Context, Plain(MissingMessage));
        r := Abort(UnauthorizedException, InvalidCredentials);
        return;
      }
      r := login.CheckUser(email.value, password.value);
    }
  }
}
