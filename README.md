# synapse_uas user service, modelled in Dafny

This project models the application core of the synapse_uas user service, a
NestJS backend that creates, finds, updates and soft-deletes users and logs
them in with a password and a signed token. The model covers:

- the user use cases: `FindUserUseCase`, `FindUserByIdUseCase`,
  `FindUserByEmailUseCase`, `CreateUserUseCase`, `UpdateUserUseCase` and
  `DeleteUserUseCase`;
- `LoginUseCase`, with `checkUser` and `login`;
- the local passport strategy's guard against missing credentials;
- the HTTP exception filter;
- the environment configuration for the application and for pino;
- the create-user body rules;
- the two user presenters.

## How the model is built

- **Collaborators.** The user store, the password hasher, the token issuer and the
  logger are classes in `collaborators.dfy`. They share one ghost `Trace`, and each
  call or log line appends one event to it. The answers the store, hasher and
  issuer give are function-valued constants, so every property holds for every
  possible answer. A thrown error is `Reply.Throw(Thrown(code, message))`.
- **The exception service.** Each of its methods always throws an
  HttpException. A call to it ends the use case with `Exit.Abort(kind, message)`.
  Any other error that leaves a use case is `Exit.Raise`.
- **Use cases.** Each use case has two parts:
  - a pure `...Step` function that describes the call: how it ends, and the
    exact store, hasher and issuer calls and log lines it makes, in order;
  - a class whose method does the same steps one by one against the
    collaborators. The method's postcondition states that its result is the
    Step's exit and that the trace grew by exactly the Step's events.

  The properties of each use case are stated on its Step function.
- **Mutation and log payloads.**
  - `CreateUserUseCase.run` writes the hash into the caller's object. That
    object is the class `Domain.UserData`.
  - A log line built with `JSON.stringify` is kept as the structured
    `LogMessage.Json` it was built from.
- **`Result`.** A `Result` is the record `{ value?, error? }`. The predicate
  `Result.ExactlyOne` says that it holds exactly one of the two. That predicate
  is proved in the postconditions of `FindUser.ByIdStep`, `FindUser.ByEmailStep`
  (when it returns), `UpdateUser.RunStep` and `DeleteUser.RunStep`.

## Model

| member | source | states |
|---|---|---|
| Domain.Code | src/domain/types/database/database-errors.enum.ts:12-37 | every DatabaseErrors member's string decodes back to that member, so the 22 codes are pairwise distinct |
| Collaborators.Logger.Log | src/infrastructure/logger/logger.service.ts:14-16 | appends one info line with the given context and message and no stack |
| Collaborators.Logger.Warn | src/infrastructure/logger/logger.service.ts:22-24 | appends one warn line with the given context and message and no stack |
| Collaborators.Logger.Error | src/infrastructure/logger/logger.service.ts:18-20 | appends one error line with the given context, message and stack |
| Collaborators.UserRepository.Create | src/domain/repository/user-repository.interface.ts:4 | records one create call with the data and returns the store's answer for that data |
| Collaborators.UserRepository.FindById | src/domain/repository/user-repository.interface.ts:5 | records one findById call and returns the store's answer: a user or a thrown error |
| Collaborators.UserRepository.FindByEmail | src/domain/repository/user-repository.interface.ts:6 | records one findByEmail call and returns the store's answer: a user, null or a thrown error |
| Collaborators.UserRepository.Update | src/domain/repository/user-repository.interface.ts:7 | records one update call with the id and data and returns the store's answer |
| Collaborators.UserRepository.DeleteById | src/domain/repository/user-repository.interface.ts:8 | records one deleteById call and returns the store's answer |
| Collaborators.CryptoService.Hash | src/domain/auth/crypto/crypto.interface.ts:2 | records one hash call with the plaintext and returns the hasher's answer |
| Collaborators.CryptoService.Compare | src/domain/auth/crypto/crypto.interface.ts:3 | records one compare call with (password, hash) in that order and returns the hasher's verdict |
| Collaborators.JwtService.CreateToken | src/domain/auth/jwt/jwt.interface.ts:4 | records one createToken call with the payload and returns the issuer's token for it |
| Collaborators.Status | src/infrastructure/http-exception/http-exception.service.ts:16-34 | each exception's status lies in 400..500, and it is 500 exactly for InternalServerErrorException |
| Text.ToUpper | src/infrastructure/config/env/app.config.ts:13 | same length, each character mapped to its upper case |
| Text.ToUpperIdempotent | src/infrastructure/config/env/app.config.ts:13 | upper-casing twice is upper-casing once |
| Text.ToLower | src/infrastructure/config/env/pino.config.ts:8 | same length, each character mapped to its lower case |
| Text.ToLowerIdempotent | src/infrastructure/config/env/pino.config.ts:8 | lower-casing twice is lower-casing once |
| Text.IntToStringRoundTrip | src/infrastructure/common/filter/exception.filter.ts:57 | an integer written into a template literal is an optionally signed digit string that parses back to the integer |
| Domain.IsNotFound | src/application/user/find-user.usecase.ts:28 | `DatabaseErrors.NOT_FOUND === code` holds exactly for the code 'P2025', which decodes to NOT_FOUND |
| FindUser.ByIdStep | src/application/user/find-user.usecase.ts:16-56 | one findById call; never throws and the Result holds exactly one side; a user comes back as value with no log; NOT_FOUND gives USER_NOT_FOUND 'User not found' and one warn `User [<id>] could not be found.`; any other error gives UNEXPECTED with one error line carrying the error |
| FindUser.ByEmailStep | src/application/user/find-user.usecase.ts:58-80 | one findByEmail call; a store error propagates unchanged with no log; null gives USER_NOT_FOUND and one warn; a user comes back as value with no log |
| FindUser.AbsenceNormalized | src/application/user/find-user.usecase.ts:28-74 | a NOT_FOUND error from byId and a null from byEmail both become the same USER_NOT_FOUND result |
| FindUser.FindUserUseCase.ById | src/application/user/find-user.usecase.ts:16-56 | returns ByIdStep's outcome and appends exactly its events |
| FindUser.FindUserUseCase.ByEmail | src/application/user/find-user.usecase.ts:58-80 | returns ByEmailStep's outcome and appends exactly its events |
| FindUserById.RunStep | src/application/user/find-user-by-id.usecase.ts:15-37 | one findById call; returns the user with no log exactly when the store answers; NOT_FOUND gives one warn and NotFoundException with `User [<id>] could not be found.`; any other error gives one error line and InternalServerErrorException 'Unexpected error occurred!'; `return null` is never reached and nothing else is thrown |
| FindUserById.AgreesWithFindUser | src/application/user/find-user-by-id.usecase.ts:15-37 | the aborting lookup and FindUserUseCase.byId agree on every store answer: user for user, 404 for USER_NOT_FOUND, 500 for UNEXPECTED with the same message |
| FindUserById.FindUserByIdUseCase.Run | src/application/user/find-user-by-id.usecase.ts:15-37 | returns RunStep's outcome and appends exactly its events |
| FindUserByEmail.RunStep | src/application/user/find-user-by-email.usecase.ts:15-43 | one findByEmail call; the store's answer, null included, is returned with no log exactly when the store answers; NOT_FOUND gives one warn and a 404; any other error gives one error line and a 500; nothing else is thrown |
| FindUserByEmail.FindUserByEmailUseCase.Run | src/application/user/find-user-by-email.usecase.ts:15-43 | returns RunStep's outcome and appends exactly its events |
| CreateUser.WithHash | src/application/user/create-user.usecase.ts:16-17 | the data with the hash as its password and every other field unchanged |
| CreateUser.RunStep | src/application/user/create-user.usecase.ts:15-42 | hash first with the caller's plaintext; a failing hash stores and logs nothing; otherwise create receives the data carrying the hash and exactly one line is logged: info with params and the created user, or error with params and the error followed by a 500 'User could not be created'; `return null` is never reached; the only password in any logged params is the hash |
| CreateUser.CreateUserUseCase.Run | src/application/user/create-user.usecase.ts:15-42 | returns RunStep's outcome, appends exactly its events, and leaves the caller's object holding the hash |
| UpdateUser.RunStep | src/application/user/update-user.usecase.ts:14-44 | one update call with the id and data unchanged; never throws and the Result holds exactly one side; exactly one line is logged; success gives the updated user and `User [<id>] updated`; any error gives USER_UPDATE `Could not update user [<id>]` |
| UpdateUser.UpdateUserUseCase.Run | src/application/user/update-user.usecase.ts:14-44 | returns RunStep's outcome and appends exactly its events |
| DeleteUser.RunStep | src/application/user/delete-user.usecase.ts:14-43 | one deleteById call; never throws and the Result holds exactly one side; exactly one line is logged; success gives the deleted user and `Soft Delete: user [<id>]`; any error gives USER_DELETE 'Could not delete user', with no id |
| DeleteUser.DeleteUserUseCase.Run | src/application/user/delete-user.usecase.ts:14-43 | returns RunStep's outcome and appends exactly its events |
| Login.Redacted | src/application/auth/login.usecase.ts:24 | the logged user has an empty password and is otherwise the user |
| Login.CheckUserAsWrittenStep | src/application/auth/login.usecase.ts:18-38 | checkUser as written: the lookup runs first with the email; its aborts pass through; it ends in a thrown TypeError exactly when the store answers null; otherwise compare(password, stored hash) is called once; a match returns the user with no log; a mismatch logs one warn with the email and the redacted user, then aborts with 401 'Invalid credentials.' |
| Login.CheckUserStep | src/application/auth/login.usecase.ts:18-38 | checkUser corrected: it never throws anything but an HttpException; it returns exactly when the email is known and the password matches its hash, and then logs nothing; the lookup's own 404 or 500 reaches the caller unchanged; an unknown email is refused with one warn and the same 401 as a wrong password; for every store answer but null it is the as-written behaviour; no line it logs carries a password |
| Login.Compared | src/application/auth/login.usecase.ts:21-35 | after a found user: one compare call; a match returns the user with no log; a mismatch logs the redacted user and aborts with 401 |
| Login.Payload | src/application/auth/login.usecase.ts:41-44 | the token's claims are the user's id as `sub` and its email, and nothing else of the user |
| Login.LoginStep | src/application/auth/login.usecase.ts:40-47 | createToken receives exactly {sub: id, email}, its token is returned unchanged, and nothing is logged, so the token does not depend on the password |
| Login.LoginUseCase.CheckUserAsWritten | src/application/auth/login.usecase.ts:18-38 | returns CheckUserAsWrittenStep's outcome and appends exactly its events |
| Login.LoginUseCase.CheckUser | src/application/auth/login.usecase.ts:18-38 | returns CheckUserStep's outcome and appends exactly its events |
| Login.LoginUseCase.Login | src/application/auth/login.usecase.ts:40-47 | returns LoginStep's token and appends exactly its events |
| LocalStrategy.Missing | src/infrastructure/common/strategy/local/local.strategy.ts:24 | `!email \|\| !password` lets through exactly two non-empty strings |
| LocalStrategy.ValidateAsWrittenStep | src/infrastructure/common/strategy/local/local.strategy.ts:23-32 | validate as written: a missing or empty email or password gives one warn 'Email or password missing' and a 401 'Invalid credentials' without reaching checkUser; otherwise it is checkUser as written on the same arguments; checkUser's TypeError leaves validate exactly when both are present and the store answers null; it lets a request through exactly when the email is known and the password matches, and then logs nothing |
| LocalStrategy.ValidateStep | src/infrastructure/common/strategy/local/local.strategy.ts:23-32 | validate over the corrected checkUser: the same guard; it never throws anything but an HttpException; it lets a request through exactly when the email is known and the password matches; it is validate as written except for a present but unknown email |
| LocalStrategy.LocalStrategy.ValidateAsWritten | src/infrastructure/common/strategy/local/local.strategy.ts:23-32 | returns ValidateAsWrittenStep's outcome and appends exactly its events |
| LocalStrategy.LocalStrategy.Validate | src/infrastructure/common/strategy/local/local.strategy.ts:23-32 | returns ValidateStep's outcome and appends exactly its events |
| ExceptionFilter.FromAbort | src/infrastructure/http-exception/http-exception.service.ts:16-34 | the exception service throws an HttpException with the kind's status and the response `{ message }` alone, with no errCode |
| ExceptionFilter.StatusOf | src/infrastructure/common/filter/exception.filter.ts:21-32 | the HttpException's own status, and 500 for any other error |
| ExceptionFilter.ResultOf | src/infrastructure/common/filter/exception.filter.ts:24-32 | the HttpException's response, or exactly {message, errCode: undefined} for any other error |
| ExceptionFilter.ResponseBody | src/infrastructure/common/filter/exception.filter.ts:34-39 | the body's keys are statusCode, timestamp, path and the result's keys; the result is spread last, so each of its keys overrides the three fixed ones |
| ExceptionFilter.Serialized | src/infrastructure/common/filter/exception.filter.ts:44 | `response.json` sends exactly the keys not bound to undefined, with their values unchanged; an object without undefined values is sent as it is |
| ExceptionFilter.Field | src/infrastructure/common/filter/exception.filter.ts:57 | a key the result lacks reads as undefined |
| ExceptionFilter.Interpolate | src/infrastructure/common/filter/exception.filter.ts:57 | `${v ?? null}` writes null and undefined as "null", a string as itself, and a number as decimal text that reads back as the number |
| ExceptionFilter.DetailLine | src/infrastructure/common/filter/exception.filter.ts:57 | the detail text starts with `method=<method> status=` and ends with ` message=` and the interpolated message |
| ExceptionFilter.EndRequest | src/infrastructure/common/filter/exception.filter.ts:56 | the context is `End Request for ` followed by the path, which can be read back from it |
| ExceptionFilter.FilterLog | src/infrastructure/common/filter/exception.filter.ts:47-67 | an error line with the stack exactly when the status is 500, and otherwise a warn line with no stack; context `End Request for <path>`; the detail `method=.. status=.. errCode=.. message=..` either way |
| ExceptionFilter.AbsentReadsAsNull | src/infrastructure/common/filter/exception.filter.ts:57 | an absent, undefined or null errCode gives the same log line |
| ExceptionFilter.AbortResponse | src/infrastructure/common/filter/exception.filter.ts:16-45 | a use-case abort reaches the client with its exception's status, its message, the request url and no errCode, and serialising the body changes nothing |
| ExceptionFilter.PlainErrorResponse | src/infrastructure/common/filter/exception.filter.ts:21-44 | any other error reaches the client as a 500 with its message; the errCode the filter binds to undefined is not sent |
| ExceptionFilter.AbortLog | src/infrastructure/common/filter/exception.filter.ts:47-67 | a use-case abort is logged as an error exactly when it is the 500, with `errCode=null` and the abort's message |
| ExceptionFilter.HttpResponse.Send | src/infrastructure/common/filter/exception.filter.ts:44 | the response carries the given status and the serialised JSON body |
| ExceptionFilter.HttpExceptionFilter.Catch | src/infrastructure/common/filter/exception.filter.ts:16-45 | sends StatusOf and the serialised ResponseBody of ResultOf, and logs exactly the one FilterLog line |
| ExceptionFilter.HttpExceptionFilter.LogMessage | src/infrastructure/common/filter/exception.filter.ts:47-67 | appends exactly the FilterLog line |
| AppConfig.ModeOf | src/infrastructure/config/env/app.config.ts:41-60 | production exactly for 'prod' and 'production', test exactly for 'test', both case-sensitive; development otherwise, including an unset NODE_ENV |
| AppConfig.Given | src/infrastructure/config/env/app.config.ts:12 | `if (securityLevel)` is false exactly for an unset level and the empty string |
| AppConfig.SaltRounds | src/infrastructure/config/env/app.config.ts:8-38 | always 5, 10, 15 or 20; a given level decides case-insensitively (HIGH 15, HIGHEST 20, DEFAULT and anything else 10); an unset or empty level leaves it to the mode (test 5, development 10, production 15) |
| AppConfig.LevelOverridesMode | src/infrastructure/config/env/app.config.ts:12-23 | with a given security level the mode makes no difference |
| AppConfig.LevelCaseInsensitive | src/infrastructure/config/env/app.config.ts:13 | upper-casing the level first changes nothing |
| AppConfig.AppConfigOf | src/infrastructure/config/env/app.config.ts:40-73 | PORT or '3001'; the mode from NODE_ENV; the salt rounds from the security level and that same mode; an empty environment gives development with 10 rounds |
| PinoConfig.IsProduction | src/infrastructure/config/env/pino.config.ts:8 | production only for a ten-letter NODE_ENV, and always for 'production' itself |
| PinoConfig.PinoConfigOf | src/infrastructure/config/env/pino.config.ts:5-16 | level 'info' exactly in production and 'debug' otherwise; no transport exactly in production and pino-pretty otherwise; an unset NODE_ENV is not production |
| PinoConfig.DecidedByOneFlag | src/infrastructure/config/env/pino.config.ts:8-14 | two environments that agree on isProduction get the same options |
| PinoConfig.ProductionCaseInsensitive | src/infrastructure/config/env/pino.config.ts:8 | lower-casing NODE_ENV first changes nothing |
| PinoConfig.ProductionSpellingsDisagree | src/infrastructure/config/env/pino.config.ts:8 | any spelling of 'production' other than the lower-case one (e.g. 'PRODUCTION') is production for pino but development, with 10 salt rounds, for appConfig; latent, since the environment schema refuses such a NODE_ENV at startup |
| PinoConfig.ProdDisagrees | src/infrastructure/config/env/pino.config.ts:8 | 'prod' is production for appConfig but not for pino; latent for the same reason |
| CreateUserDto.Length | src/interfaces/controller/user/dto/create-user.dto.ts:14-15 | the length MinLength and MaxLength measure: at most the number of code points, equal to it exactly when the string holds no U+FE0E or U+FE0F, and 0 exactly when it holds nothing else |
| CreateUserDto.SelectorNotCounted | src/interfaces/controller/user/dto/create-user.dto.ts:14 | "ab" followed by U+FE0F has three code points but length 2, so MinLength(3) refuses it as a firstname |
| CreateUserDto.FieldValid | src/interfaces/controller/user/dto/create-user.dto.ts:11-64 | a field that passes its decorators is a string whose Length lies within [3, its MaxLength], so it holds at least three code points; an accepted email also passes the email rule |
| CreateUserDto.Valid | src/interfaces/controller/user/dto/create-user.dto.ts:11-64 | a body is accepted exactly when every field passes its rules; an accepted body holds a string in every field |
| CreateUserDto.Violations | src/interfaces/controller/user/dto/create-user.dto.ts:11-64 | lists each field that breaks a rule, each once: a field is listed exactly when it breaks one, and the list is empty exactly when the body is valid |
| CreateUserDto.FieldRules | src/interfaces/controller/user/dto/create-user.dto.ts:12-55 | per field, valid exactly when it is a string whose Length lies in [3,50] for firstname or [3,150] for the others, and for email also an address the email rule accepts |
| CreateUserDto.AcceptedHasFourStrings | src/interfaces/controller/user/dto/create-user.dto.ts:12-55 | an accepted body has four strings of Length at least 3, a firstname of Length at most 50 and an email the email rule accepts |
| Presenters.CreateUserView | src/interfaces/controller/user/presenter/create-user.presenter.ts:6-41 | exactly id, firstname, lastname, email and createdAt, each copied unchanged; no password, updatedAt or deletedAt |
| Presenters.UserView | src/interfaces/controller/user/presenter/user.presenter.ts:13-33 | exactly id, firstname, lastname, email, createdAt and updatedAt; the text fields are copied and the dates go through toISOString; no password or deletedAt |
| Presenters.CreateUserViewHidesRest | src/interfaces/controller/user/presenter/create-user.presenter.ts:6-41 | users differing only in password, updatedAt or deletedAt present alike |
| Presenters.UserViewHidesRest | src/interfaces/controller/user/presenter/user.presenter.ts:13-33 | users differing only in password or deletedAt present alike |
| Presenters.PresentersAgree | src/interfaces/controller/user/presenter/user.presenter.ts:15-33 | the two presenters show the same copied text fields; UserPresenter adds only updatedAt |

## Findings

| source | as written | input that shows it | evidently intended | confidence | as-written member | corrected member |
|---|---|---|---|---|---|---|
| src/application/auth/login.usecase.ts:19-21 | checkUser reads `user!.password` straight after the lookup. FindUserByEmailUseCase returns null for an unknown email, so a TypeError escapes and reaches the client as a 500 | checkUser("nobody@example.com", "x") when the store's findByEmail answers null | an unknown email ends in an HttpException, not an uncaught TypeError. Which one is a design choice. The corrected member refuses it with the same 401 'Invalid credentials.' as a wrong password, so every bad login is answered alike. The narrower store interface (src/domain/repository/user/user-repository.interface.ts:6, which never answers null) and the NOT_FOUND case that src/application/user/find-user-by-email.usecase.spec.ts:124-150 tests point instead to a 404 `User [<email>] could not be found.` from the lookup | not executed | Login.CheckUserAsWrittenStep | Login.CheckUserStep |
| src/infrastructure/common/strategy/local/local.strategy.ts:31 | validate hands a present email and password to checkUser as written, so the TypeError above leaves the strategy and the login request gets a 500 | validate("nobody@example.com", "x") when the store's findByEmail answers null | the request ends in an HttpException. The corrected member chooses a 401, like a wrong password; the 404 reading of the row above is the other candidate | not executed | LocalStrategy.ValidateAsWrittenStep | LocalStrategy.ValidateStep |

`Login.CheckUserAsWrittenStep` proves that the call ends in a thrown error
exactly when the store answers null. `Login.CheckUserStep` proves that only
HttpExceptions leave the call, and that it returns exactly when the user is
known and the password matches. `LocalStrategy.ValidateAsWrittenStep` is the
strategy as written, over the as-written checkUser: it lets the TypeError out
exactly for a present email the store does not know.
`LocalStrategy.ValidateStep` is the strategy over the corrected checkUser. It
is proved equal to the as-written strategy on every other input.

## Left out

- The Prisma store (src/infrastructure/repository/user.repository.ts) and its
  client are not modelled. The store is an abstract collaborator with the
  first `IUserRepository` contract (src/domain/repository/user-repository.interface.ts).
  That findById signals absence with a P2025 error, and findByEmail with
  null, is an assumption here. The second, narrower interface
  (src/domain/repository/user/user-repository.interface.ts) is not used.
- bcrypt and JWT internals are not modelled. hash and compare are
  uninterpreted answers, and so is createToken.
  - Only a hash failure is modelled as throwing.
  - A failing compare or createToken is not modelled.
- Letter case mapping covers ASCII only: `toUpperCase` and `toLowerCase` on
  non-ASCII letters are not modelled.
- A string is a sequence of Unicode scalar values. A JavaScript string that
  holds an unpaired UTF-16 surrogate cannot be represented.
- The IsEmail format rule is the parameter `isEmail`.
- Date.toISOString is the parameter `toIso`.
- The filter's `new Date().toISOString()` timestamp is a parameter of `Catch`.
- `parseInt(PORT, 10)`: the port is kept as the PORT text.
- `console.log(request.body)` in the filter is not modelled.
- JSON.stringify of a log object is kept as the structured `LogMessage.Json`
  it serialises. The text rendering, key order included, is not modelled.
- A number in an exception response is an integer in the model.
- Nested objects and arrays in an exception response are not modelled. The
  ValidationPipe's BadRequestException carries `message` as an array of
  strings, which the filter's template literal joins with commas. The model
  has no array value, so that log text is not modelled.
- A string-valued `getResponse()` is not modelled.
- Login.CheckUserAsWrittenStep: `user.password = ''` mutates the object the
  store returned. The model logs a redacted copy instead, so any caller
  still holding that object does not see its password cleared.
- FindUserById.RunStep and CreateUser.RunStep: the `return null` after the
  exception service is unreachable, because that service always throws.
  The model has no path for it.
- `@Catch(HttpException)` means only HttpExceptions reach the filter. The
  non-HttpException branch of `catch` is modelled as written, but in the
  application it is reached only if the filter is registered without
  that decorator.
- getSaltRounds' final `return 10` is unreachable, since EnvMode has three
  members.
- src/infrastructure/config/types/mode.enum.ts is not part of this model.
  An unset NODE_ENV yields development whatever that enum's string is.
- src/domain/types/application/result.ts and error-code.enum.ts are not part
  of this model. Result and ErrorCode take the shape in which the use cases
  build them.
- passport-local's `authenticate` refuses a missing or empty email or password
  with 'Missing credentials' before it calls `validate`. The passport library
  is not modelled. So the `LocalStrategy.Missing` branch, with its 'Email or
  password missing' warn, is modelled as written, but a request through the
  guard does not reach it.
- `async`/`await` is treated as sequential calls.
- The following are framework wiring and are not modelled:
  - dependency injection, the proxies, the modules, `main.ts`;
  - the Swagger, gRPC and Joi schema options;
  - the controllers, the presenter interceptor, the GetUser decorator and
    the JWT strategy.
- The logger's debug and verbose methods are not used by the core and are
  not modelled.
- The repository's unit tests disagree with the code in two places. The
  model follows the code:
  - the create-user test expects a three-argument constructor and a Result;
  - the update-user test expects `User [%<id>] updated`.
