/** FindUserByEmailUseCase (src/application/user/find-user-by-email.usecase.ts):
 *  returns whatever the store returns (a user or null), or logs once and
 *  aborts through the exception service when the store throws. */
module FindUserByEmail {
  import opened Domain
  import opened Collaborators
  import FindUser

  const Context := "FindUserByEmailUseCase"

  /** run, given the store's answer to findByEmail(email). */
  function RunStep(email: string, reply: Reply<Option<UserModel>>): (s: Step<Option<UserModel>>)
    ensures Calls(s.events) == [StoreFindByEmail(email)]
    // the store is asked before anything is logged
    ensures |s.events| >= 1 && s.events[0] == Called(StoreFindByEmail(email))
    // the store's answer, null included, comes back as it is, with nothing logged
    ensures s.exit.Done? <==> reply.Ok?
    ensures reply.Ok? ==> s.exit == Done(reply.value) && Logs(s.events) == []
    // no error path returns normally or lets the store's error through
    ensures !s.exit.Raise?
    ensures reply.Throw? && IsNotFound(reply.error) ==>
      && s.exit == Abort(NotFoundException, FindUser.NotFoundText(email))
      && Logs(s.events) == [LogEntry(Warn, Context, Json(s.exit.message, None, None, None, Some(reply.error)), None)]
    ensures reply.Throw? && !IsNotFound(reply.error) ==>
      && s.exit == Abort(InternalServerErrorException, FindUser.UnexpectedMessage)
      && Logs(s.events) == [LogEntry(Error, Context, Json(FindUser.UnexpectedMessage, None, None, None, Some(reply.error)), None)]
  {
    var asked := Called(StoreFindByEmail(email));
    OneEvent(asked);
    match reply
    case Ok(user) => Step(Done(user), [asked])
    case Throw(err) =>
      var message := FindUser.NotFoundText(email);
      if IsNotFound(err) then
        var logged := Logged(LogEntry(Warn, Context, Json(message, None, None, None, Some(err)), None));
        Pair(asked, logged);
        OneEvent(logged);
        Step(Abort(NotFoundException, message), [asked, logged])
      else
        var logged := Logged(LogEntry(Error, Context, Json(FindUser.UnexpectedMessage, None, None, None, Some(err)), None));
        Pair(asked, logged);
        OneEvent(logged);
        Step(Abort(InternalServerErrorException, FindUser.UnexpectedMessage), [asked, logged])
  }

  class FindUserByEmailUseCase {
    const store: UserRepository
    const logger: Logger

    ghost predicate Valid() {
      store.trace == logger.trace
    }

    constructor (store: UserRepository, logger: Logger)
      requires store.trace == logger.trace
      ensures this.store == store && this.logger == logger && Valid()
    {
      this.store, this.logger := store, logger;
    }

    method Run(email: string) returns (r: Exit<Option<UserModel>>)
      requires Valid()
      modifies logger.trace
      ensures var s := RunStep(email, store.answers.findByEmail(email));
        r == s.exit && logger.trace.events == old(logger.trace.events) + s.events
    {
      var reply := store.FindByEmail(email);
      if reply.Ok? {
        r := Done(reply.value);
        return;
      }
      var err := reply.error;
      var message := FindUser.NotFoundText(email);
      if IsNotFound(err) {
        logger.Warn(Context, Json(message, None, None, None, Some(err)));
        r := Abort(NotFoundException, message);
        return;
      }
      message := FindUser.UnexpectedMessage;
      logger.Error(Context, Json(message, None, None, None, Some(err)), None);
      r := Abort(InternalServerErrorException, message);
    }
  }
}
