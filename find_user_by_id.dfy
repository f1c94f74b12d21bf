/** FindUserByIdUseCase (src/application/user/find-user-by-id.usecase.ts):
 *  returns the store's user, or logs once and aborts through the exception
 *  service. */
module FindUserById {
  import opened Domain
  import opened Collaborators
  import FindUser

  const Context := "FindUserByIdUseCase"

  /** run, given the store's answer to findById(userId). */
  function RunStep(userId: string, reply: Reply<UserModel>): (s: Step<Option<UserModel>>)
    ensures Calls(s.events) == [StoreFindById(userId)]
    // the store is asked before anything is logged
    ensures |s.events| >= 1 && s.events[0] == Called(StoreFindById(userId))
    // the store's user comes back unchanged, with nothing logged
    ensures s.exit.Done? <==> reply.Ok?
    ensures reply.Ok? ==> s.exit == Done(Some(reply.value)) && Logs(s.events) == []
    // `return null` is never reached: every failure aborts
    ensures !s.exit.Raise? && (s.exit.Done? ==> s.exit.value.Some?)
    ensures reply.Throw? && IsNotFound(reply.error) ==>
      && s.exit == Abort(NotFoundException, FindUser.NotFoundText(userId))
      && Logs(s.events) == [LogEntry(Warn, Context, Json(FindUser.NotFoundText(userId), None, None, None, Some(reply.error)), None)]
    ensures reply.Throw? && !IsNotFound(reply.error) ==>
      && s.exit == Abort(InternalServerErrorException, FindUser.UnexpectedMessage)
      && Logs(s.events) == [LogEntry(Error, Context, Json(FindUser.UnexpectedMessage, None, None, None, Some(reply.error)), None)]
  {
    var asked := Called(StoreFindById(userId));
    OneEvent(asked);
    match reply
    case Ok(user) => Step(Done(Some(user)), [asked])
    case Throw(err) =>
      var message := FindUser.NotFoundText(userId);
      if IsNotFound(err) then
        var logged := Logged(LogEntry(Warn, Context, Json(message, None, None, None, Some(err)), None));
        Pair(asked, logged);
        OneEvent(logged);
        Step(Abort(NotFoundException, message), [asked, logged])
      else
        var logged := Logged(LogEntry(Error, Context, Json(FindUser.UnexpectedMessage, None, None, None, Some(err)), None));
        Pair(asked, logged);
        OneEvent(logged);
        Step(Abort(InternalServerErrorException, FindUser.UnexpectedMessage), [asked, logged])
  }

  /** The aborting lookup and the Result-returning byId agree on every store
   *  answer: a user is returned by both or by neither; NotFoundException
   *  matches USER_NOT_FOUND, and InternalServerErrorException matches
   *  UNEXPECTED with the same message. */
  lemma AgreesWithFindUser(userId: string, reply: Reply<UserModel>)
    ensures var a := RunStep(userId, reply).exit;
      var b := FindUser.ByIdStep(userId, reply).exit.value;
      && (a.Done? <==> b.value.Some?)
      && (a.Done? ==> a.value == b.value)
      && (a.Abort? && a.kind == NotFoundException <==> b.error == Some(FindUser.UserNotFoundError))
      && (a.Abort? && a.kind == InternalServerErrorException <==> b.error == Some(FindUser.UnexpectedError))
      && (a.Abort? && a.kind == InternalServerErrorException ==> a.message == b.error.value.message)
  {
  }

  class FindUserByIdUseCase {
    const store: UserRepository
    const logger: Logger

    ghost predicate Valid() {
      store.trace == logger.trace
    }

    constructor (store: UserRepository, logger: Logger)
      requires store.trace == logger.trace
      ensures this.store == store && this.logger == logger && Valid()
    {
      this.store, this.logger := store, logger;
    }

    method Run(userId: string) returns (r: Exit<Option<UserModel>>)
      requires Valid()
      modifies logger.trace
      ensures var s := RunStep(userId, store.answers.findById(userId));
        r == s.exit && logger.trace.events == old(logger.trace.events) + s.events
    {
      var reply := store.FindById(userId);
      if reply.Ok? {
        r := Done(Some(reply.value));
        return;
      }
      var err := reply.error;
      var message := FindUser.NotFoundText(userId);
      if IsNotFound(err) {
        logger.Warn(Context, Json(message, None, None, None, Some(err)));
        r := Abort(NotFoundException, message);
        return;
      }
      message := FindUser.UnexpectedMessage;
      logger.Error(Context, Json(message, None, None, None, Some(err)), None);
      r := Abort(InternalServerErrorException, message);
    }
  }
}
