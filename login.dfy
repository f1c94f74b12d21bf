/** LoginUseCase (src/application/auth/login.usecase.ts): checkUser looks the
 *  user up by email and compares the password against the stored hash;
 *  login signs a token for a user. */
module Login {
  import opened Domain
  import opened Collaborators
  import FindUserByEmail

  const Context := "LoginUseCase"
  const InvalidCredentials := "Invalid credentials."

  /** The TypeError `user!.password` throws when the lookup returned null;
   *  its message, without the "TypeError: " of its string form. */
  const NullUser := Thrown(None, "Cannot read properties of null (reading 'password')")

  /** The user as logged after `user.password = ''`. */
  function Redacted(user: UserModel): (r: UserModel)
    ensures r.password == ""
    ensures r.(password := user.password) == user
  {
    user.(password := "")
  }

  /** The warn line of a failed check: its message, params holding only the
   *  email, and the (redacted) user when there is one. */
  function InvalidCredentialsEntry(email: string, user: Option<UserModel>): LogEntry {
    LogEntry(Warn, Context, Json(InvalidCredentials, Some(EmailParam(email)), user, None, None), None)
  }

  /** checkUser as written, given the store's answer to findByEmail(email) and
   *  the hasher's compare. */
  function CheckUserAsWrittenStep(email: string, password: string, found: Reply<Option<UserModel>>,
                                  compare: (string, string) -> bool): (s: Step<UserModel>)
    // the lookup runs first, with exactly the given email
    ensures var lookup := FindUserByEmail.RunStep(email, found);
      |lookup.events| <= |s.events| && s.events[..|lookup.events|] == lookup.events
    ensures |Calls(s.events)| >= 1 && Calls(s.events)[0] == StoreFindByEmail(email)
    // an abort of the lookup passes through unchanged
    ensures found.Throw? ==> s == (var lookup := FindUserByEmail.RunStep(email, found); Step(Rethrow(lookup.exit), lookup.events))
    // a null user is dereferenced: a TypeError, not an unauthorized abort
    ensures s.exit.Raise? <==> found == Ok(None)
    ensures found == Ok(None) ==> s == Step(Raise(NullUser), FindUserByEmail.RunStep(email, found).events)
    ensures found.Ok? && found.value.Some? ==>
      var user := found.value.value;
      var own := s.events[|FindUserByEmail.RunStep(email, found).events|..];
      // compare gets (given password, stored hash), in that order, before any warn
      && Calls(own) == [Compare(password, user.password)]
      && |own| >= 1 && own[0] == Called(Compare(password, user.password))
      // a match returns the user unchanged and logs nothing
      && (compare(password, user.password) ==> s.exit == Done(user) && Logs(own) == [])
      // a mismatch logs one warn without the password, then aborts: never returns normally
      && (!compare(password, user.password) ==>
            && s.exit == Abort(UnauthorizedException, InvalidCredentials)
            && Logs(own) == [InvalidCredentialsEntry(email, Some(Redacted(user)))])
  {
    var lookup := FindUserByEmail.RunStep(email, found);
    if !lookup.exit.Done? then Step(Rethrow(lookup.exit), lookup.events)
    else if lookup.exit.value.None? then Step(Raise(NullUser), lookup.events)
    else Compared(email, password, lookup.exit.value.value, lookup.events, compare)
  }

  /** checkUser as intended: a missing user is refused like a wrong password. */
  function CheckUserStep(email: string, password: string, found: Reply<Option<UserModel>>,
                         compare: (string, string) -> bool): (s: Step<UserModel>)
    ensures var lookup := FindUserByEmail.RunStep(email, found);
      |lookup.events| <= |s.events| && s.events[..|lookup.events|] == lookup.events
    ensures |Calls(s.events)| >= 1 && Calls(s.events)[0] == StoreFindByEmail(email)
    // nothing but an HttpException ever leaves checkUser
    ensures !s.exit.Raise?
    // it returns exactly when the email is known and the password matches its hash
    ensures s.exit.Done? <==> found.Ok? && found.value.Some? && compare(password, found.value.value.password)
    ensures s.exit.Done? ==> s.exit.value == found.value.value && Logs(s.events) == []
    // an unknown email: one warn, then the same 401 as a wrong password
    ensures found == Ok(None) ==>
      var own := s.events[|FindUserByEmail.RunStep(email, found).events|..];
      && s.exit == Abort(UnauthorizedException, InvalidCredentials)
      && own == [Logged(InvalidCredentialsEntry(email, None))]
    // the lookup's own 404 or 500 reaches the caller unchanged, with its log line
    ensures found.Throw? ==>
      s == (var lookup := FindUserByEmail.RunStep(email, found); Step(Rethrow(lookup.exit), lookup.events))
    // for every answer but null it is checkUser as written
    ensures found != Ok(None) ==>
      s == CheckUserAsWrittenStep(email, password, found, compare)
    // no line checkUser itself logs carries a password other than ''
    ensures forall e <- Logs(s.events[|FindUserByEmail.RunStep(email, found).events|..]) ::
      e.message.Json? && (e.message.user.Some? ==> e.message.user.value.password == "")
  {
    var lookup := FindUserByEmail.RunStep(email, found);
    if !lookup.exit.Done? then
      assert lookup.events[|lookup.events|..] == [];
      Step(Rethrow(lookup.exit), lookup.events)
    else if lookup.exit.value.None? then
      var refused := [Logged(InvalidCredentialsEntry(email, None))];
      assert (lookup.events + refused)[|lookup.events|..] == refused;
      OneEvent(refused[0]);
      CallsAppend(lookup.events, refused);
      Step(Abort(UnauthorizedException, InvalidCredentials), lookup.events + refused)
    else
      var checked := Compared(email, password, lookup.exit.value.value, lookup.events, compare);
      assert checked.events == lookup.events + checked.events[|lookup.events|..];
      LogsAppend(lookup.events, checked.events[|lookup.events|..]);
      checked
  }

  /** What follows a successful lookup of `user`: compare, then return it or
   *  warn and abort. */
  function Compared(email: string, password: string, user: UserModel, before: seq<Event>,
                    compare: (string, string) -> bool): (s: Step<UserModel>)
    requires |Calls(before)| >= 1
    ensures |before| <= |s.events| && s.events[..|before|] == before
    ensures |Calls(s.events)| >= 1 && Calls(s.events)[0] == Calls(before)[0]
    ensures var own := s.events[|before|..];
      && Calls(own) == [Compare(password, user.password)]
      // compare runs before the warn
      && |own| >= 1 && own[0] == Called(Compare(password, user.password))
      && (compare(password, user.password) ==> s.exit == Done(user) && Logs(own) == [])
      && (!compare(password, user.password) ==>
            && s.exit == Abort(UnauthorizedException, InvalidCredentials)
            && Logs(own) == [InvalidCredentialsEntry(email, Some(Redacted(user)))])
  {
    var compared := Called(Compare(password, user.password));
    OneEvent(compared);
    if compare(password, user.password) then
      assert (before + [compared])[|before|..] == [compared];
      CallsAppend(before, [compared]);
      Step(Done(user), before + [compared])
    else
      var refused := Logged(InvalidCredentialsEntry(email, Some(Redacted(user))));
      OneEvent(refused);
      Pair(compared, refused);
      assert (before + [compared, refused])[|before|..] == [compared, refused];
      CallsAppend(before, [compared, refused]);
      Step(Abort(UnauthorizedException, InvalidCredentials), before + [compared, refused])
  }

  /** The claims login signs: the subject id and the email. */
  function Payload(user: UserModel): (p: JwtPayload)
    // the two claims are all there is: no other field of the user, the password hash included
    ensures p.sub == user.id && p.email == user.email
  {
    JwtPayload(user.id, user.email)
  }

  /** login, given the issuer's signing function. */
  function LoginStep(user: UserModel, sign: JwtPayload -> string): (s: Step<string>)
    // createToken receives exactly {sub: id, email}, and its token is returned unchanged
    ensures Calls(s.events) == [CreateToken(JwtPayload(user.id, user.email))]
    ensures s.exit == Done(sign(JwtPayload(user.id, user.email)))
    ensures Logs(s.events) == []
  {
    OneEvent(Called(CreateToken(Payload(user))));
    Step(Done(sign(Payload(user))), [Called(CreateToken(Payload(user)))])
  }

  class LoginUseCase {
    const finder: FindUserByEmail.FindUserByEmailUseCase
    const crypto: CryptoService
    const jwt: JwtService
    const logger: Logger

    ghost predicate Valid() {
      && finder.Valid()
      && finder.logger.trace == crypto.trace == jwt.trace == logger.trace
    }

    constructor (finder: FindUserByEmail.FindUserByEmailUseCase, crypto: CryptoService, jwt: JwtService, logger: Logger)
      requires finder.Valid() && finder.logger.trace == crypto.trace == jwt.trace == logger.trace
      ensures this.finder == finder && this.crypto == crypto && this.jwt == jwt && this.logger == logger
      ensures Valid()
    {
      this.finder, this.crypto, this.jwt, this.logger := finder, crypto, jwt, logger;
    }

    /** checkUser as the source has it. */
    method CheckUserAsWritten(email: string, password: string) returns (r: Exit<UserModel>)
      requires Valid()
      modifies logger.trace
      ensures var s := CheckUserAsWrittenStep(email, password, finder.store.answers.findByEmail(email), crypto.answers.compare);
        r == s.exit && logger.trace.events == old(logger.trace.events) + s.events
    {
      var found := finder.Run(email);
      if !found.Done? {
        r := Rethrow(found);
        return;
      }
      if found.value.None? {
        r := Raise(NullUser);
        return;
      }
      var user := found.value.value;
      var isMatch := crypto.Compare(password, user.password);
      if !isMatch {
        user := Redacted(user);
        logger.Warn(Context, Json(InvalidCredentials, Some(EmailParam(email)), Some(user), None, None));
        r := Abort(UnauthorizedException, InvalidCredentials);
        return;
      }
      r := Done(user);
    }

    /** checkUser with the unknown-email case refused instead of dereferenced. */
    method CheckUser(email: string, password: string) returns (r: Exit<UserModel>)
      requires Valid()
      modifies logger.trace
      ensures var s := CheckUserStep(email, password, finder.store.answers.findByEmail(email), crypto.answers.compare);
        r == s.exit && logger.trace.events == old(logger.trace.events) + s.events
    {
      var found := finder.Run(email);
      if !found.Done? {
        r := Rethrow(found);
        return;
      }
      if found.value.None? {
        logger.Warn(Context, Json(InvalidCredentials, Some(EmailParam(email)), None, None, None));
        r := Abort(UnauthorizedException, InvalidCredentials);
        return;
      }
      var user := found.value.value;
      var isMatch := crypto.Compare(password, user.password);
      if !isMatch {
        user := Redacted(user);
        logger.Warn(Context, Json(InvalidCredentials, Some(EmailParam(email)), Some(user), None, None));
        r := Abort(UnauthorizedException, InvalidCredentials);
        return;
      }
      r := Done(user);
    }

    method Login(user: UserModel) returns (token: string)
      requires Valid()
      modifies logger.trace
      ensures var s := LoginStep(user, jwt.sign);
        Done(token) == s.exit && logger.trace.events == old(logger.trace.events) + s.events
    {
      var payload := Payload(user);
      token := jwt.CreateToken(payload);
    }
  }
}
