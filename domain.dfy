/** The entities of the user domain: the user record, the partial user data
 *  callers pass in, the application error taxonomy, the value-or-error result
 *  the Result-returning use cases build, the store's error codes and the token
 *  payload. */
module Domain {

  datatype Option<+T> = None | Some(value: T)

  /** A point in time. The model never inspects it; rendering it is left to an
   *  uninterpreted formatter where the source calls toISOString. */
  datatype Date = Date(epochMillis: int)

  /** A user record as the store returns it (src/domain/model/user.model.ts). */
  datatype UserModel = UserModel(
    id: string,
    email: string,
    password: string,
    firstname: string,
    lastname: string,
    createdAt: Date,
    updatedAt: Date,
    deletedAt: Option<Date>)

  /** Partial<UserModel> as a value: every field may be absent; deletedAt,
   *  when present, is null (None) or a date. */
  datatype PartialUser = PartialUser(
    id: Option<string>,
    email: Option<string>,
    password: Option<string>,
    firstname: Option<string>,
    lastname: Option<string>,
    createdAt: Option<Date>,
    updatedAt: Option<Date>,
    deletedAt: Option<Option<Date>>)

  /** A Partial<UserModel> object owned by the caller. The create use case
   *  writes the hash into its password field, which the caller then sees. */
  class UserData {
    var id: Option<string>
    var email: Option<string>
    var password: Option<string>
    var firstname: Option<string>
    var lastname: Option<string>
    var createdAt: Option<Date>
    var updatedAt: Option<Date>
    var deletedAt: Option<Option<Date>>

    constructor (init: PartialUser)
      ensures Snapshot() == init
    {
      id, email, password := init.id, init.email, init.password;
      firstname, lastname := init.firstname, init.lastname;
      createdAt, updatedAt, deletedAt := init.createdAt, init.updatedAt, init.deletedAt;
    }

    /** The object's current field values, as JSON.stringify or the store would read them. */
    function Snapshot(): PartialUser
      reads this
    {
      PartialUser(id, email, password, firstname, lastname, createdAt, updatedAt, deletedAt)
    }
  }

  /** The application error codes the use cases return. */
  datatype ErrorCode = WrongPassword | UserNotFound | UserCreate | UserUpdate | UserDelete | Unexpected

  /** src/domain/types/application/error.interface.ts */
  datatype ErrorResponse = ErrorResponse(code: ErrorCode, message: string)

  /** The `{ value?, error? }` object the Result-returning use cases build:
   *  the shape admits both or neither; ExactlyOne is what the use cases keep. */
  datatype Result<T, E> = Result(value: Option<T>, error: Option<E>) {
    predicate ExactlyOne() {
      value.Some? != error.Some?
    }
  }

  /** `{ value: v }` */
  function Value<T, E>(v: T): Result<T, E> {
    Result(Some(v), None)
  }

  /** `{ error: e }` */
  function Failure<T, E>(e: E): Result<T, E> {
    Result(None, Some(e))
  }

  /** The store's error codes (src/domain/types/database/database-errors.enum.ts). */
  datatype DatabaseErrors =
    | DbAuthenticationFailed | DbUnreachable | DbTimeout | DbDoesNotExist
    | OpTimeout | AccessDenied | RqIncorrectNumberOfParameters
    | UniqueConstraint | ForeignKey | ConstraintFailed | DataValidationError
    | RqFailed | NullConstraint | MissedRequiredValue | TableDoesNotExist
    | ColumnDoesNotExist | NotFound | MultipleErrors | TransactionApiError
    | Deadlock | TooManyDatabaseConnections | UnexpectedDb

  /** The string each enum member stands for; decoding it gives the member back,
   *  so no two members share a code. */
  function Code(e: DatabaseErrors): (s: string)
    ensures FromCode(s) == Some(e)
  {
    match e
    case DbAuthenticationFailed => "P1000"
    case DbUnreachable => "P1001"
    case DbTimeout => "P1002"
    case DbDoesNotExist => "P1003"
    case OpTimeout => "P1008"
    case AccessDenied => "P1010"
    case RqIncorrectNumberOfParameters => "P1016"
    case UniqueConstraint => "P2002"
    case ForeignKey => "P2003"
    case ConstraintFailed => "P2004"
    case DataValidationError => "P2007"
    case RqFailed => "P2010"
    case NullConstraint => "P2011"
    case MissedRequiredValue => "P2012"
    case TableDoesNotExist => "P2021"
    case ColumnDoesNotExist => "P2022"
    case NotFound => "P2025"
    case MultipleErrors => "P2027"
    case TransactionApiError => "P2028"
    case Deadlock => "P2034"
    case TooManyDatabaseConnections => "P2037"
    case UnexpectedDb => "U0001"
  }

  /** The enum member whose value is `s`, if any. */
  function FromCode(s: string): Option<DatabaseErrors> {
    match s
    case "P1000" => Some(DbAuthenticationFailed)
    case "P1001" => Some(DbUnreachable)
    case "P1002" => Some(DbTimeout)
    case "P1003" => Some(DbDoesNotExist)
    case "P1008" => Some(OpTimeout)
    case "P1010" => Some(AccessDenied)
    case "P1016" => Some(RqIncorrectNumberOfParameters)
    case "P2002" => Some(UniqueConstraint)
    case "P2003" => Some(ForeignKey)
    case "P2004" => Some(ConstraintFailed)
    case "P2007" => Some(DataValidationError)
    case "P2010" => Some(RqFailed)
    case "P2011" => Some(NullConstraint)
    case "P2012" => Some(MissedRequiredValue)
    case "P2021" => Some(TableDoesNotExist)
    case "P2022" => Some(ColumnDoesNotExist)
    case "P2025" => Some(NotFound)
    case "P2027" => Some(MultipleErrors)
    case "P2028" => Some(TransactionApiError)
    case "P2034" => Some(Deadlock)
    case "P2037" => Some(TooManyDatabaseConnections)
    case "U0001" => Some(UnexpectedDb)
    case _ => None
  }

  /** Anything a collaborator throws, read the way the use cases read it
   *  (`err as DatabaseError`): a `code` that may be missing, and a message. */
  datatype Thrown = Thrown(code: Option<string>, message: string)

  /** `DatabaseErrors.NOT_FOUND === code` */
  predicate IsNotFound(err: Thrown)
    ensures IsNotFound(err) <==> err.code == Some("P2025")
    ensures IsNotFound(err) ==> FromCode(err.code.value) == Some(NotFound)
  {
    err.code == Some(Code(NotFound))
  }

  /** What one awaited collaborator call yields: a value, or a thrown error. */
  datatype Reply<T> = Ok(value: T) | Throw(error: Thrown)

  /** The claims put into a signed token. */
  datatype JwtPayload = JwtPayload(sub: string, email: string)
}
