/** What the use cases run against: the logger, the user store, the password
 *  hasher, the token issuer and the HTTP exception service. None of them is
 *  interpreted. The store, hasher and issuer answer through function-valued
 *  constants that any lemma quantifies over. Every collaborator call and every
 *  log line is appended to one shared ghost trace, so contracts can say which
 *  calls happen, with which arguments, in which order, and what is logged. */
module Collaborators {
  import opened Domain

  // ---------------------------------------------------------------- logging

  /** logger.log, logger.warn, logger.error */
  datatype Level = Info | Warn | Error

  /** The `params` member of a logged object: only the email, or the user data. */
  datatype Params = EmailParam(email: string) | DataParam(data: PartialUser)

  /** A log message: a plain template string, or JSON.stringify of an object
   *  with a `message` and, when present, `params`, `user`, `result`, `error`. */
  datatype LogMessage =
    | Plain(text: string)
    | Json(message: string, params: Option<Params>, user: Option<UserModel>,
           result: Option<UserModel>, error: Option<Thrown>)

  /** One log line: level, context (the logging class's name), message and,
   *  for logger.error, the stack trace passed with it. */
  datatype LogEntry = LogEntry(level: Level, context: string, message: LogMessage, trace: Option<string>)

  // ------------------------------------------------------ collaborator calls

  datatype Call =
    | StoreCreate(data: PartialUser)
    | StoreFindById(userId: string)
    | StoreFindByEmail(email: string)
    | StoreUpdate(userId: string, data: PartialUser)
    | StoreDeleteById(userId: string)
    | Hash(plain: Option<string>)
    | Compare(given: string, stored: string)
    | CreateToken(payload: JwtPayload)

  datatype Event = Called(call: Call) | Logged(entry: LogEntry)

  /** The log lines of a trace, in order. */
  function Logs(events: seq<Event>): (r: seq<LogEntry>)
    ensures |r| <= |events|
  {
    if events == [] then []
    else (if events[0].Logged? then [events[0].entry] else []) + Logs(events[1..])
  }

  /** The collaborator calls of a trace, in order. */
  function Calls(events: seq<Event>): (r: seq<Call>)
    ensures |r| <= |events|
    ensures |r| + |Logs(events)| == |events|
  {
    if events == [] then []
    else (if events[0].Called? then [events[0].call] else []) + Calls(events[1..])
  }

  /** Filtering the log lines distributes over concatenated traces. */
  lemma {:induction false} LogsAppend(a: seq<Event>, b: seq<Event>)
    ensures Logs(a + b) == Logs(a) + Logs(b)
  {
    if a != [] {
      assert (a + b)[1..] == a[1..] + b;
      LogsAppend(a[1..], b);
    } else {
      assert a + b == b;
    }
  }

  /** Filtering the calls distributes over concatenated traces. */
  lemma {:induction false} CallsAppend(a: seq<Event>, b: seq<Event>)
    ensures Calls(a + b) == Calls(a) + Calls(b)
  {
    if a != [] {
      assert (a + b)[1..] == a[1..] + b;
      CallsAppend(a[1..], b);
    } else {
      assert a + b == b;
    }
  }

  lemma OneEvent(e: Event)
    ensures Logs([e]) == (if e.Logged? then [e.entry] else [])
    ensures Calls([e]) == (if e.Called? then [e.call] else [])
  {
    assert [e][1..] == [];
  }

  /** Calls and logs of a two-event trace, spelled out. */
  lemma Pair(a: Event, b: Event)
    ensures Logs([a, b]) == Logs([a]) + Logs([b])
    ensures Calls([a, b]) == Calls([a]) + Calls([b])
  {
    LogsAppend([a], [b]);
    CallsAppend([a], [b]);
  }

  /** Calls and logs of a three-event trace, spelled out. */
  lemma Triple(a: Event, b: Event, c: Event)
    ensures Logs([a, b, c]) == Logs([a]) + Logs([b]) + Logs([c])
    ensures Calls([a, b, c]) == Calls([a]) + Calls([b]) + Calls([c])
  {
    Pair(a, b);
    assert [a, b, c] == [a, b] + [c];
    LogsAppend([a, b], [c]);
    CallsAppend([a, b], [c]);
  }

  /** The ghost record of everything the collaborators were asked to do. */
  class Trace {
    ghost var events: seq<Event>

    constructor ()
      ensures events == []
    {
      events := [];
    }
  }

  /** ILoggerService: each call appends exactly one entry to the trace. */
  class Logger {
    const trace: Trace

    constructor (trace: Trace)
      ensures this.trace == trace
    {
      this.trace := trace;
    }

    method Log(context: string, message: LogMessage)
      modifies trace
      ensures trace.events == old(trace.events) + [Logged(LogEntry(Info, context, message, None))]
    {
      trace.events := trace.events + [Logged(LogEntry(Info, context, message, None))];
    }

    method Warn(context: string, message: LogMessage)
      modifies trace
      ensures trace.events == old(trace.events) + [Logged(LogEntry(Level.Warn, context, message, None))]
    {
      trace.events := trace.events + [Logged(LogEntry(Level.Warn, context, message, None))];
    }

    method Error(context: string, message: LogMessage, stack: Option<string>)
      modifies trace
      ensures trace.events == old(trace.events) + [Logged(LogEntry(Level.Error, context, message, stack))]
    {
      trace.events := trace.events + [Logged(LogEntry(Level.Error, context, message, stack))];
    }
  }

  // ------------------------------------------------------------------ store

  /** What the store answers to each request: arbitrary, which is how the model
   *  leaves it uninterpreted. findById reports absence by throwing (with the
   *  NOT_FOUND code, as findUniqueOrThrow does); findByEmail by returning null. */
  datatype StoreAnswers = StoreAnswers(
    create: PartialUser -> Reply<UserModel>,
    findById: string -> Reply<UserModel>,
    findByEmail: string -> Reply<Option<UserModel>>,
    update: (string, PartialUser) -> Reply<UserModel>,
    deleteById: string -> Reply<UserModel>)

  /** IUserRepository */
  class UserRepository {
    const trace: Trace
    const answers: StoreAnswers

    constructor (trace: Trace, answers: StoreAnswers)
      ensures this.trace == trace && this.answers == answers
    {
      this.trace, this.answers := trace, answers;
    }

    method Create(data: PartialUser) returns (r: Reply<UserModel>)
      modifies trace
      ensures r == answers.create(data)
      ensures trace.events == old(trace.events) + [Called(StoreCreate(data))]
    {
      trace.events := trace.events + [Called(StoreCreate(data))];
      r := answers.create(data);
    }

    method FindById(userId: string) returns (r: Reply<UserModel>)
      modifies trace
      ensures r == answers.findById(userId)
      ensures trace.events == old(trace.events) + [Called(StoreFindById(userId))]
    {
      trace.events := trace.events + [Called(StoreFindById(userId))];
      r := answers.findById(userId);
    }

    method FindByEmail(email: string) returns (r: Reply<Option<UserModel>>)
      modifies trace
      ensures r == answers.findByEmail(email)
      ensures trace.events == old(trace.events) + [Called(StoreFindByEmail(email))]
    {
      trace.events := trace.events + [Called(StoreFindByEmail(email))];
      r := answers.findByEmail(email);
    }

    method Update(userId: string, data: PartialUser) returns (r: Reply<UserModel>)
      modifies trace
      ensures r == answers.update(userId, data)
      ensures trace.events == old(trace.events) + [Called(StoreUpdate(userId, data))]
    {
      trace.events := trace.events + [Called(StoreUpdate(userId, data))];
      r := answers.update(userId, data);
    }

    method DeleteById(userId: string) returns (r: Reply<UserModel>)
      modifies trace
      ensures r == answers.deleteById(userId)
      ensures trace.events == old(trace.events) + [Called(StoreDeleteById(userId))]
    {
      trace.events := trace.events + [Called(StoreDeleteById(userId))];
      r := answers.deleteById(userId);
    }
  }

  // ------------------------------------------------------ hasher and issuer

  /** ICryptoService's answers. hash receives whatever `userData.password!`
   *  evaluates to, which may be undefined. */
  datatype CryptoAnswers = CryptoAnswers(
    hash: Option<string> -> Reply<string>,
    compare: (string, string) -> bool)

  /** ICryptoService */
  class CryptoService {
    const trace: Trace
    const answers: CryptoAnswers

    constructor (trace: Trace, answers: CryptoAnswers)
      ensures this.trace == trace && this.answers == answers
    {
      this.trace, this.answers := trace, answers;
    }

    method Hash(plain: Option<string>) returns (r: Reply<string>)
      modifies trace
      ensures r == answers.hash(plain)
      ensures trace.events == old(trace.events) + [Called(Call.Hash(plain))]
    {
      trace.events := trace.events + [Called(Call.Hash(plain))];
      r := answers.hash(plain);
    }

    method Compare(plain: string, hashed: string) returns (r: bool)
      modifies trace
      ensures r == answers.compare(plain, hashed)
      ensures trace.events == old(trace.events) + [Called(Call.Compare(plain, hashed))]
    {
      trace.events := trace.events + [Called(Call.Compare(plain, hashed))];
      r := answers.compare(plain, hashed);
    }
  }

  /** IJwtService */
  class JwtService {
    const trace: Trace
    const sign: JwtPayload -> string

    constructor (trace: Trace, sign: JwtPayload -> string)
      ensures this.trace == trace && this.sign == sign
    {
      this.trace, this.sign := trace, sign;
    }

    method CreateToken(payload: JwtPayload) returns (token: string)
      modifies trace
      ensures token == sign(payload)
      ensures trace.events == old(trace.events) + [Called(Call.CreateToken(payload))]
    {
      trace.events := trace.events + [Called(Call.CreateToken(payload))];
      token := sign(payload);
    }
  }

  // ------------------------------------------------------ exception service

  /** The HttpException each IHttpExceptionService method throws. */
  datatype AbortKind =
    | BadRequestException | ForbiddenException | InternalServerErrorException
    | UnauthorizedException | NotFoundException

  /** The HTTP status each exception carries. */
  function Status(k: AbortKind): (s: int)
    ensures 400 <= s <= 500
    ensures s == 500 <==> k == InternalServerErrorException
  {
    match k
    case BadRequestException => 400
    case ForbiddenException => 403
    case InternalServerErrorException => 500
    case UnauthorizedException => 401
    case NotFoundException => 404
  }

  /** How a use case call ends: it returns a value; the exception service
   *  throws (every one of its methods always throws, so the call never
   *  returns past it); or some other error is thrown out of it. */
  datatype Exit<T> = Done(value: T) | Abort(kind: AbortKind, message: string) | Raise(error: Thrown)

  /** A use case call, described: how it ends, and the calls and log lines it makes. */
  datatype Step<T> = Step(exit: Exit<T>, events: seq<Event>)

  /** An exception passing through a caller unchanged. */
  function Rethrow<A, B>(e: Exit<A>): (r: Exit<B>)
    requires !e.Done?
    ensures r.Abort? == e.Abort? && r.Raise? == e.Raise?
    ensures r.Abort? ==> r.kind == e.kind && r.message == e.message
    ensures r.Raise? ==> r.error == e.error
  {
    match e
    case Abort(k, m) => Abort(k, m)
    case Raise(err) => Raise(err)
  }
}
