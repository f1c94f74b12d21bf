/** DeleteUserUseCase (src/application/user/delete-user.usecase.ts): asks the
 *  store for a soft delete and wraps the outcome in a `{ value }` / `{ error }`
 *  result, logging exactly once either way. */
module DeleteUser {
  import opened Domain
  import opened Collaborators

  const Context := "DeleteUserUseCase"
  const FailureMessage := "Could not delete user"

  /** `Soft Delete: user [<id>]` */
  function DeletedMessage(userId: string): string {
    "Soft Delete: user [" + userId + "]"
  }

  /** run, given the store's answer to deleteById(userId). */
  function RunStep(userId: string, reply: Reply<UserModel>): (s: Step<Result<UserModel, ErrorResponse>>)
    // no exception escapes, and the result never carries both value and error
    ensures s.exit.Done? && s.exit.value.ExactlyOne()
    ensures Calls(s.events) == [StoreDeleteById(userId)]
    // the line is logged after the store has answered
    ensures |s.events| >= 1 && s.events[0] == Called(StoreDeleteById(userId))
    ensures |Logs(s.events)| == 1
    ensures reply.Ok? ==>
      && s.exit.value == Value(reply.value)
      && Logs(s.events) == [LogEntry(Info, Context, Plain(DeletedMessage(userId)), None)]
    // one fixed USER_DELETE error whatever the id and the store's error
    ensures reply.Throw? ==>
      && s.exit.value == Failure(ErrorResponse(UserDelete, FailureMessage))
      && Logs(s.events) == [LogEntry(Error, Context, Json(FailureMessage, None, None, None, Some(reply.error)), None)]
  {
    var asked := Called(StoreDeleteById(userId));
    var logged :=
      if reply.Ok? then LogEntry(Info, Context, Plain(DeletedMessage(userId)), None)
      else LogEntry(Error, Context, Json(FailureMessage, None, None, None, Some(reply.error)), None);
    OneEvent(asked);
    OneEvent(Logged(logged));
    Pair(asked, Logged(logged));
    match reply
    case Ok(user) => Step(Done(Value(user)), [asked, Logged(logged)])
    case Throw(_) => Step(Done(Failure(ErrorResponse(UserDelete, FailureMessage))), [asked, Logged(logged)])
  }

  class DeleteUserUseCase {
    const store: UserRepository
    const logger: Logger

    ghost predicate Valid() {
      store.trace == logger.trace
    }

    constructor (store: UserRepository, logger: Logger)
      requires store.trace == logger.trace
      ensures this.store == store && this.logger == logger && Valid()
    {
      this.store, this.logger := store, logger;
    }

    method Run(userId: string) returns (r: Exit<Result<UserModel, ErrorResponse>>)
      requires Valid()
      modifies logger.trace
      ensures var s := RunStep(userId, store.answers.deleteById(userId));
        r == s.exit && logger.trace.events == old(logger.trace.events) + s.events
    {
      var reply := store.DeleteById(userId);
      if reply.Ok? {
        logger.Log(Context, Plain(DeletedMessage(userId)));
        r := Done(Value(reply.value));
        return;
      }
      logger.Error(Context, Json(FailureMessage, None, None, None, Some(reply.error)), None);
      r := Done(Failure(ErrorResponse(UserDelete, FailureMessage)));
    }
  }
}
