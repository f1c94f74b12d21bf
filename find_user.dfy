/** FindUserUseCase (src/application/user/find-user.usecase.ts): looks a user
 *  up by id or by email and turns every store outcome into a
 *  `{ value }` / `{ error }` result, logging once on each failure. */
module FindUser {
  import opened Domain
  import opened Collaborators

  const Context := "FindUserUseCase"
  const UnexpectedMessage := "Unexpected error occurred!"

  /** The error both lookups return when there is no such user. */
  const UserNotFoundError := ErrorResponse(UserNotFound, "User not found")
  const UnexpectedError := ErrorResponse(Unexpected, UnexpectedMessage)

  /** `User [<key>] could not be found.` */
  function NotFoundText(key: string): string {
    "User [" + key + "] could not be found."
  }

  /** byId, given the store's answer to findById(userId). */
  function ByIdStep(userId: string, reply: Reply<UserModel>): (s: Step<Result<UserModel, ErrorResponse>>)
    // no store error escapes, and the result holds exactly one of value and error
    ensures s.exit.Done? && s.exit.value.ExactlyOne()
    // the store is asked once, with the given id
    ensures Calls(s.events) == [StoreFindById(userId)]
    // and before anything is logged
    ensures |s.events| >= 1 && s.events[0] == Called(StoreFindById(userId))
    ensures reply.Ok? ==> s.exit.value == Value(reply.value) && Logs(s.events) == []
    ensures reply.Throw? && IsNotFound(reply.error) ==>
      && s.exit.value == Failure(UserNotFoundError)
      && Logs(s.events) == [LogEntry(Warn, Context, Plain(NotFoundText(userId)), None)]
    ensures reply.Throw? && !IsNotFound(reply.error) ==>
      && s.exit.value == Failure(UnexpectedError)
      && Logs(s.events) == [LogEntry(Error, Context, Json(UnexpectedMessage, None, None, None, Some(reply.error)), None)]
  {
    var asked := Called(StoreFindById(userId));
    OneEvent(asked);
    match reply
    case Ok(user) => Step(Done(Value(user)), [asked])
    case Throw(err) =>
      var logged :=
        if IsNotFound(err) then LogEntry(Warn, Context, Plain(NotFoundText(userId)), None)
        else LogEntry(Error, Context, Json(UnexpectedMessage, None, None, None, Some(err)), None);
      Pair(asked, Logged(logged));
      OneEvent(Logged(logged));
      Step(Done(Failure(if IsNotFound(err) then UserNotFoundError else UnexpectedError)), [asked, Logged(logged)])
  }

  /** byEmail, given the store's answer to findByEmail(email). It has no
   *  try/catch: a store error leaves it unchanged. */
  function ByEmailStep(email: string, reply: Reply<Option<UserModel>>): (s: Step<Result<UserModel, ErrorResponse>>)
    ensures Calls(s.events) == [StoreFindByEmail(email)]
    ensures |s.events| >= 1 && s.events[0] == Called(StoreFindByEmail(email))
    ensures s.exit.Raise? <==> reply.Throw?
    ensures reply.Throw? ==> s.exit == Raise(reply.error) && Logs(s.events) == []
    ensures s.exit.Done? ==> s.exit.value.ExactlyOne()
    ensures reply == Ok(None) ==>
      && s.exit == Done(Failure(UserNotFoundError))
      && Logs(s.events) == [LogEntry(Warn, Context, Plain(NotFoundText(email)), None)]
    ensures reply.Ok? && reply.value.Some? ==>
      s.exit == Done(Value(reply.value.value)) && Logs(s.events) == []
  {
    var asked := Called(StoreFindByEmail(email));
    OneEvent(asked);
    match reply
    case Throw(err) => Step(Raise(err), [asked])
    case Ok(None) =>
      var logged := Logged(LogEntry(Warn, Context, Plain(NotFoundText(email)), None));
      Pair(asked, logged);
      OneEvent(logged);
      Step(Done(Failure(UserNotFoundError)), [asked, logged])
    case Ok(Some(user)) => Step(Done(Value(user)), [asked])
  }

  /** The two lookups signal absence differently (a NOT_FOUND error, a null
   *  user) and callers see the same error for both. */
  lemma AbsenceNormalized(userId: string, email: string, err: Thrown)
    requires IsNotFound(err)
    ensures ByIdStep(userId, Throw(err)).exit == ByEmailStep(email, Ok(None)).exit == Done(Failure(UserNotFoundError))
  {
  }

  class FindUserUseCase {
    const store: UserRepository
    const logger: Logger

    ghost predicate Valid() {
      store.trace == logger.trace
    }

    constructor (store: UserRepository, logger: Logger)
      requires store.trace == logger.trace
      ensures this.store == store && this.logger == logger && Valid()
    {
      this.store, this.logger := store, logger;
    }

    method ById(userId: string) returns (r: Exit<Result<UserModel, ErrorResponse>>)
      requires Valid()
      modifies logger.trace
      ensures var s := ByIdStep(userId, store.answers.findById(userId));
        r == s.exit && logger.trace.events == old(logger.trace.events) + s.events
    {
      var reply := store.FindById(userId);
      match reply {
        case Ok(user) =>
          r := Done(Value(user));
        case Throw(err) =>
          if IsNotFound(err) {
            logger.Warn(Context, Plain(NotFoundText(userId)));
            r := Done(Failure(UserNotFoundError));
            return;
          }
          logger.Error(Context, Json(UnexpectedMessage, None, None, None, Some(err)), None);
          r := Done(Failure(ErrorResponse(Unexpected, UnexpectedMessage)));
      }
    }

    method ByEmail(email: string) returns (r: Exit<Result<UserModel, ErrorResponse>>)
      requires Valid()
      modifies logger.trace
      ensures var s := ByEmailStep(email, store.answers.findByEmail(email));
        r == s.exit && logger.trace.events == old(logger.trace.events) + s.events
    {
      var reply := store.FindByEmail(email);
      if reply.Throw? {
        r := Raise(reply.error);
        return;
      }
      var user := reply.value;
      if user.None? {
        logger.Warn(Context, Plain(NotFoundText(email)));
        r := Done(Failure(UserNotFoundError));
        return;
      }
      r := Done(Value(user.value));
    }
  }
}
