# User registration service, modelled in Dafny

This project models the user module of a small NestJS service. A person signs up
with a name, an email and coordinates. The service resolves the coordinates to a city
through a fixed, ordered table of boxes (Cairo, then Alexandria, then Giza; the first
box holding the point wins). It then creates and saves the user and signs a JWT over
`{ id, email }`. A profile lookup returns a stored user by id. The controller turns
these into HTTP replies: a 201 with an httpOnly `jwt` cookie or a 400 for sign-up, and
a 200 envelope or NotFound for a lookup. `CreateUserDto` declares the request's field
constraints.

Files:

- `wrappers.dfy`: `Option`, `Result` and the `Exception` kinds (BadRequest, NotFound, plain Error).
- `entities.dfy`: the `City` enumeration, the `User` row and the in-memory `UserEntity` object. `save` writes the id into this object.
- `repository.dfy`: the TypeORM repository as a class over a map from id to row. Its methods are `create`, `save` (insert under a fresh key, or overwrite) and `findOne`. A ghost log records every call with its arguments.
- `dto.dfy`: the DTO and its class-validator constraints. `IsEmail` is a parameter.
- `resolver.dfy`: `getMockCityFromCoordinates` and its first-match-wins properties.
- `service.dfy`: `UserService.signUp` and `getProfile`, the pure functions that specify them, and how the city boxes sit inside the DTO's coordinate bounds.
- `js_numbers.dfy`: ECMAScript `parseInt(s, 10)` and integer-to-decimal rendering.
- `controller.dfy`: the Express response object, the sign-up reply mapping, and `UserController.signUp` / `getProfile`.

The signer is an opaque function `Payload -> Result<string, string>`. It may fail, and
then the user is already saved; nothing rolls the save back.

## Model

| member | source | states |
|---|---|---|
| `Resolver.ResolveCity` | src/user/user.service.ts:52-62 | First-match semantics of the city table. A returned city's box holds the point, and no box tried earlier holds it. Null exactly when no box holds the point. |
| `Resolver.FirstMatchSpec` | src/user/user.service.ts:53-61 | For any ordered table, first-match returns the entry at a position whose box holds the point while no earlier entry's box does. It returns null iff no entry's box holds the point. |
| `Resolver.ResolveCityIsFirstMatch` | src/user/user.service.ts:52-62 | The if / else-if chain equals first-match over the table [Cairo, Alexandria, Giza]. |
| `Resolver.CairoWins` | src/user/user.service.ts:53-54 | Every point with lat in [29.5, 31.0] and lon in [30.5, 31.7] resolves to Cairo, even where it also lies in the Alexandria or Giza box. |
| `Resolver.AlexandriaIff` | src/user/user.service.ts:55-56 | Alexandria iff the point is outside the Cairo box and inside lat [30.7, 31.5] x lon [29.0, 30.7]. |
| `Resolver.GizaIff` | src/user/user.service.ts:57-58 | Giza iff the point is outside the Cairo and Alexandria boxes and inside lat [28.5, 30.0] x lon [30.5, 32.5]. |
| `Resolver.OverlapsResolveToCairo` | src/user/user.service.ts:53-58 | The Cairo box overlaps the Alexandria box at (30.8, 30.6) and the Giza box at (29.8, 31.0), and both points resolve to Cairo. The Alexandria and Giza boxes never overlap. |
| `Resolver.ResolveExamples` | src/user/user.service.spec.ts:35-71 | (40.0, 50.0) resolves to null; (30.05, 31.15) resolves to Cairo. |
| `Service.ResolvedPointsPassRangeChecks` | src/user/dto/create-user.dto.ts:10-18 | Every resolvable point passes the DTO's latitude and longitude bounds. The in-range point (22.0, 25.0) resolves to null, so a valid request can still fail with BadRequest. |
| `Dto.Violations` | src/user/dto/create-user.dto.ts:3-19 | Lists the violated constraints: name is flagged iff it is empty, email iff the email predicate rejects it, latitude iff outside [22.0, 31.5], longitude iff outside [25.0, 35.0]. |
| `Dto.ValidIffAllConstraints` | src/user/dto/create-user.dto.ts:4-18 | A DTO is valid iff its name is non-empty, its email satisfies the predicate, and both coordinates are within their inclusive bounds. |
| `Dto.InvalidExampleViolatesEveryConstraint` | src/user/user.controller.spec.ts:93-98 | The request ('', 'not-an-email', 100, 200) violates all four constraints, given that the email predicate rejects 'not-an-email'. |
| `Repository.UserRepository.Create` | src/user/user.service.ts:33-37 | `create` returns a new entity with the given fields and no id, and records the call. It writes nothing to the table. |
| `Repository.UserRepository.Save` | src/user/user.service.ts:38 | An entity without an id gets a key not in the table, written back into the same entity object. The table gains that row and nothing else changes. The entity's fields are unchanged. |
| `Repository.UserRepository.FindOne` | src/user/user.service.ts:73 | Returns the row stored under the key, or null when there is none. The table is unchanged. |
| `Service.SignUpOutcome` | src/user/user.service.ts:27-44 | The sign-up result for the key the store assigned. BadRequest with the service's message iff the city is unresolved. On success, the user has the DTO's name and email, the resolved city and the key, and the token is the signer's output over that user's `{ id, email }`. A resolved city and a working signer always give success with exactly that user and token. A resolved city with a failing signer gives exactly the signer's error, as an `Error` distinct from BadRequest; a signer error is propagated only after the city resolved. Every failure is BadRequest or the signer's error. |
| `Service.TableAfterSignUp` | src/user/user.service.ts:28-38 | Unresolved city: the table is unchanged. Otherwise it has exactly one more row, under the fresh key, with the DTO's name and email and the resolved city; all other rows are unchanged. |
| `Service.LookupAfterSignUp` | src/user/user.service.ts:72-78 | After a successful sign-up, looking up the new id returns exactly the user the sign-up returned. Every other id looks up as before. |
| `Service.Lookup` | src/user/user.service.ts:72-78 | The lookup result: success iff the id is in the table, and then exactly the stored row; otherwise NotFound('User not found'). |
| `Service.UserService.SignUp` | src/user/user.service.ts:27-44 | Unresolved city: BadRequest and the repository is untouched (no create, no save). Resolved: exactly one `create` and one `save` with the DTO's name and email and the city, and one new row under a fresh key. The result is `SignUpOutcome` for that key: the persisted user plus the token signed over its `{ id, email }`. |
| `Service.UserService.GetProfile` | src/user/user.service.ts:72-78 | Returns the stored row for the id unchanged, or NotFound('User not found'). It makes exactly one `findOne` with that id and leaves the table unchanged. |
| `Service.SignUpThenGetProfile` | src/user/user.service.ts:27-78 | A lookup of the id a successful sign-up returned yields exactly the registered user, with the DTO's name and email. |
| `JsNumbers.TrimStart` | src/user/user.controller.ts:57 | `parseInt` first drops the leading white space: the result is a suffix of the input, the dropped part is all white space, and the result does not start with white space. |
| `JsNumbers.DigitPrefix` | src/user/user.controller.ts:57 | `parseInt` then reads the longest run of decimal digits: a prefix of the input, all digits, followed by a non-digit or the end. |
| `JsNumbers.ParseInt10` | src/user/user.controller.ts:57 | A number comes back only when a digit follows the leading white space and an optional sign. Its magnitude is the value of the longest digit run there, and it is negative only when that sign is '-'. |
| `JsNumbers.Decimal` | src/user/user.controller.spec.ts:127 | The rendering of an integer (`toString()`, or a template literal as in test/user.e2e-spec.ts:56) is all digits without a leading zero, with a '-' in front when negative. |
| `JsNumbers.ParseIntNaNIff` | src/user/user.controller.ts:57-58 | `parseInt(s, 10)` is NaN iff, after leading white space and an optional sign, no digit follows. |
| `JsNumbers.ParseIntReadsLeadingDigits` | src/user/user.controller.ts:57 | After leading white space, a digit run is read up to the first non-digit; trailing characters are ignored ("12abc" gives 12). |
| `JsNumbers.ParseIntOfDecimal` | src/user/user.controller.spec.ts:127-134 | `parseInt` reads back the decimal rendering of every integer, so the service gets the id the path was built from. |
| `JsNumbers.InvalidIdIsNaN` | src/user/user.controller.spec.ts:137-139 | `parseInt("invalid-id", 10)` is NaN. |
| `Controller.SignUpReply` | src/user/user.controller.ts:27-46 | On service success: the httpOnly cookie 'jwt' holding the token, status 201, and body {201, 'User created successfully', data: user}. On any error: no cookie, status 400, and body {400, 'User creation failed', error: message}. The body's statusCode always equals the status. |
| `Controller.Response.SetCookie` | src/user/user.controller.ts:32 | `res.cookie` appends exactly that cookie and changes nothing else. |
| `Controller.Response.SetStatus` | src/user/user.controller.ts:34 | `res.status` sets the status code and changes nothing else. |
| `Controller.Response.SendJson` | src/user/user.controller.ts:34-38 | `res.json` sets the body and changes nothing else. |
| `Controller.UserController.SignUp` | src/user/user.controller.ts:27-46 | Passes the DTO unchanged to the service (one call). The table changes as `TableAfterSignUp` says. The response ends with the cookie, status and body `SignUpReply` gives for the service's outcome; on failure no cookie is added. |
| `Controller.UserController.GetProfile` | src/user/user.controller.ts:56-73 | A NaN parse gives NotFound with no service or repository call. Otherwise there is exactly one service call, with the parsed integer. The stored user comes back as {200, 'User profile fetched successfully', data: user}; a missing user gives NotFound. The table is unchanged. |
| `Controller.SignUpThenFetchProfile` | test/user.e2e-spec.ts:43-63 | Sign-up answers 201 with the sent name and email. Fetching `/user/<id>` with the id from the reply body answers 200 with exactly the user the sign-up reply carried. |

## Left out

- Request validation is not wired into the modelled flow. No validation pipe appears in the modelled files, and the service and controller never check the DTO. So `SignUp` does not require `Dto.Valid`, and the resolver accepts any reals.
- `IsNumber` is not modelled: DTO coordinates are typed `real`, so a body value that is not a number cannot be expressed.
- `IsEmail` is an opaque parameter `isEmail: string -> bool`, because its implementation belongs to class-validator.
- IEEE-754 doubles are not modelled. Box bounds are exact reals, since the resolver only compares. `parseInt` results are exact integers: rounding of digit strings beyond 2^53 and the value -0 (which reads as 0 here) are not represented. `Decimal` renders every integer in plain digits. JavaScript renders integers of magnitude 1e21 or more in exponent form ("1e+21"), which `parseInt` reads back as 1, so `ParseIntOfDecimal` holds for JavaScript only below 1e21.
- The resolver is deterministic because it is a Dafny function, so no separate lemma states that.
- Repository faults are not modelled: `save` and `findOne` always succeed. A `save` fault during sign-up would reach the controller's catch and give the 400 reply. `getProfile` has no try/catch (src/user/user.controller.ts:56-73), so a `findOne` fault would escape the controller as an unhandled error. Email uniqueness is not enforced, as in the source.
- The JWT signer is an opaque function of the payload. Its secret, its one-hour expiry and its cryptography are module configuration and library internals.
- The id the store assigns is modelled only as a key not already in the table, because the entity declaration is not part of this model. `user.entity.ts` and `cties.ts` are not part of this model; their shape is taken from how the service and tests use them.
- The controller's `if (!user)` check (src/user/user.controller.ts:64-66) cannot fire against the real service. The service already throws NotFound with the same message, and the model propagates that. Only a mocked service returning null reaches the check, and the outcome is the same NotFound.
- The code does not check that a parsed id is positive. Zero or a negative id simply finds no row.
- Sign-up errors are not split into separate kinds. The controller maps every error, whatever its kind, to the same 400 reply carrying the error's message.
- src/user/user.service.spec.ts:53 expects `signUp` to return the bare saved user. The source returns `{ user, token }` (src/user/user.service.ts:43), and the model follows the source.
- Not modelled: async/await (calls run in sequence), NestJS turning a thrown NotFound into a 404 reply, the return value of `res.json`, module wiring (app.module.ts, user.module.ts), the SQL seed migration, and the supertest e2e harness.
