/** CreateUserUseCase (src/application/user/create-user.usecase.ts): hashes the
 *  password into the caller's data, persists it, logs once and returns the
 *  created user, or aborts with a 500 when the store fails. */
module CreateUser {
  import opened Domain
  import opened Collaborators

  const Context := "CreateUserUseCase"
  const FailureMessage := "User could not be created"

  /** `User [<id>] created!` */
  function CreatedMessage(id: string): string {
    "User [" + id + "] created!"
  }

  /** The caller's data once the hash has replaced the password: only the
   *  password differs. */
  function WithHash(input: PartialUser, hash: string): (d: PartialUser)
    ensures d.password == Some(hash)
    ensures d.(password := input.password) == input
  {
    input.(password := Some(hash))
  }

  /** run, given the caller's data, the hasher's answer for its password and
   *  the store's create. */
  function RunStep(input: PartialUser, hashed: Reply<string>, create: PartialUser -> Reply<UserModel>): (s: Step<Option<UserModel>>)
    // hash comes first, once, with the caller's plaintext
    ensures |Calls(s.events)| >= 1 && Calls(s.events)[0] == Hash(input.password)
    ensures |s.events| >= 1 && s.events[0] == Called(Hash(input.password))
    // a failing hash persists nothing and logs nothing
    ensures hashed.Throw? ==> s.exit == Raise(hashed.error) && s.events == [Called(Hash(input.password))]
    // otherwise the store receives the data with the hash as its password, and one line is logged
    ensures hashed.Ok? ==>
      && Calls(s.events) == [Hash(input.password), StoreCreate(WithHash(input, hashed.value))]
      // the line is logged after the store has answered
      && |s.events| == 3 && s.events[1] == Called(StoreCreate(WithHash(input, hashed.value)))
      && |Logs(s.events)| == 1
    ensures hashed.Ok? && create(WithHash(input, hashed.value)).Ok? ==>
      var user := create(WithHash(input, hashed.value)).value;
      && s.exit == Done(Some(user))
      && Logs(s.events) == [LogEntry(Info, Context,
           Json(CreatedMessage(user.id), Some(DataParam(WithHash(input, hashed.value))), None, Some(user), None), None)]
    ensures hashed.Ok? && create(WithHash(input, hashed.value)).Throw? ==>
      && s.exit == Abort(InternalServerErrorException, FailureMessage)
      && Logs(s.events) == [LogEntry(Error, Context,
           Json(FailureMessage, Some(DataParam(WithHash(input, hashed.value))), None, None,
                Some(create(WithHash(input, hashed.value)).error)), None)]
    // `return null` is never reached
    ensures s.exit.Done? ==> s.exit.value.Some?
    // the only password any log line's params carry is the hash
    ensures hashed.Ok? ==> forall e <- Logs(s.events) ::
      e.message.Json? && e.message.params.Some? && e.message.params.value.DataParam?
      && e.message.params.value.data.password == Some(hashed.value)
  {
    var hashCall := Called(Hash(input.password));
    OneEvent(hashCall);
    match hashed
    case Throw(err) => Step(Raise(err), [hashCall])
    case Ok(hash) =>
      var data := WithHash(input, hash);
      var storeCall := Called(StoreCreate(data));
      OneEvent(storeCall);
      match create(data)
      case Ok(user) =>
        var logged := Logged(LogEntry(Info, Context, Json(CreatedMessage(user.id), Some(DataParam(data)), None, Some(user), None), None));
        OneEvent(logged);
        Triple(hashCall, storeCall, logged);
        Step(Done(Some(user)), [hashCall, storeCall, logged])
      case Throw(err) =>
        var logged := Logged(LogEntry(Error, Context, Json(FailureMessage, Some(DataParam(data)), None, None, Some(err)), None));
        OneEvent(logged);
        Triple(hashCall, storeCall, logged);
        Step(Abort(InternalServerErrorException, FailureMessage), [hashCall, storeCall, logged])
  }

  class CreateUserUseCase {
    const store: UserRepository
    const logger: Logger
    const crypto: CryptoService

    ghost predicate Valid() {
      store.trace == logger.trace == crypto.trace
    }

    constructor (store: UserRepository, logger: Logger, crypto: CryptoService)
      requires store.trace == logger.trace == crypto.trace
      ensures this.store == store && this.logger == logger && this.crypto == crypto && Valid()
    {
      this.store, this.logger, this.crypto := store, logger, crypto;
    }

    method Run(data: UserData) returns (r: Exit<Option<UserModel>>)
      requires Valid()
      modifies data, logger.trace
      ensures var s := RunStep(old(data.Snapshot()), crypto.answers.hash(old(data.password)), store.answers.create);
        r == s.exit && logger.trace.events == old(logger.trace.events) + s.events
      // the caller's object keeps the hash as its password
      ensures var hashed := crypto.answers.hash(old(data.password));
        data.Snapshot() == if hashed.Ok? then WithHash(old(data.Snapshot()), hashed.value) else old(data.Snapshot())
    {
      var hashed := crypto.Hash(data.password);
      if hashed.Throw? {
        r := Raise(hashed.error);
        return;
      }
      data.password := Some(hashed.value);
      var params := data.Snapshot();
      var created := store.Create(params);
      if created.Ok? {
        var user := created.value;
        logger.Log(Context, Json(CreatedMessage(user.id), Some(DataParam(params)), None, Some(user), None));
        r := Done(Some(user));
        return;
      }
      logger.Error(Context, Json(FailureMessage, Some(DataParam(params)), None, None, Some(created.error)), None);
      r := Abort(InternalServerErrorException, FailureMessage);
    }
  }
}
