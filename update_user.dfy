/** UpdateUserUseCase (src/application/user/update-user.usecase.ts): passes the
 *  update to the store and wraps the outcome in a `{ value }` / `{ error }`
 *  result, logging exactly once either way. */
module UpdateUser {
  import opened Domain
  import opened Collaborators

  const Context := "UpdateUserUseCase"

  /** `User [<id>] updated` */
  function UpdatedMessage(userId: string): string {
    "User [" + userId + "] updated"
  }

  /** `Could not update user [<id>]` */
  function FailureMessage(userId: string): string {
    "Could not update user [" + userId + "]"
  }

  /** run, given the store's answer to update(userId, data). */
  function RunStep(userId: string, data: PartialUser, reply: Reply<UserModel>): (s: Step<Result<UserModel, ErrorResponse>>)
    // no exception escapes, and the result never carries both value and error
    ensures s.exit.Done? && s.exit.value.ExactlyOne()
    // the store receives the id and the data unchanged, once
    ensures Calls(s.events) == [StoreUpdate(userId, data)]
    // the line is logged after the store has answered
    ensures |s.events| >= 1 && s.events[0] == Called(StoreUpdate(userId, data))
    ensures |Logs(s.events)| == 1
    ensures reply.Ok? ==>
      && s.exit.value == Value(reply.value)
      && Logs(s.events) == [LogEntry(Info, Context, Plain(UpdatedMessage(userId)), None)]
    // whatever the store's error code, the same USER_UPDATE error
    ensures reply.Throw? ==>
      && s.exit.value == Failure(ErrorResponse(UserUpdate, FailureMessage(userId)))
      && Logs(s.events) == [LogEntry(Error, Context, Json(FailureMessage(userId), None, None, None, Some(reply.error)), None)]
  {
    var asked := Called(StoreUpdate(userId, data));
    var logged :=
      if reply.Ok? then LogEntry(Info, Context, Plain(UpdatedMessage(userId)), None)
      else LogEntry(Error, Context, Json(FailureMessage(userId), None, None, None, Some(reply.error)), None);
    OneEvent(asked);
    OneEvent(Logged(logged));
    Pair(asked, Logged(logged));
    match reply
    case Ok(user) => Step(Done(Value(user)), [asked, Logged(logged)])
    case Throw(_) => Step(Done(Failure(ErrorResponse(UserUpdate, FailureMessage(userId)))), [asked, Logged(logged)])
  }

  class UpdateUserUseCase {
    const store: UserRepository
    const logger: Logger

    ghost predicate Valid() {
      store.trace == logger.trace
    }

    constructor (store: UserRepository, logger: Logger)
      requires store.trace == logger.trace
      ensures this.store == store && this.logger == logger && Valid()
    {
      this.store, this.logger := store, logger;
    }

    method Run(userId: string, data: UserData) returns (r: Exit<Result<UserModel, ErrorResponse>>)
      requires Valid()
      modifies logger.trace
      ensures var s := RunStep(userId, data.Snapshot(), store.answers.update(userId, data.Snapshot()));
        r == s.exit && logger.trace.events == old(logger.trace.events) + s.events
    {
      var reply := store.Update(userId, data.Snapshot());
      if reply.Ok? {
        logger.Log(Context, Plain(UpdatedMessage(userId)));
        r := Done(Value(reply.value));
        return;
      }
      var message := FailureMessage(userId);
      logger.Error(Context, Json(message, None, None, None, Some(reply.error)), None);
      r := Done(Failure(ErrorResponse(UserUpdate, message)));
    }
  }
}
