/**
 * `UserController`: `POST /user/signup` writes its reply onto the Express response
 * object step by step (cookie, status, JSON body); `GET /user/:id` parses the path id
 * and returns a 200 envelope or throws NotFound.
 */
module Controller {
  import opened Wrappers
  import opened Exceptions
  import opened Entities
  import opened Dto
  import opened Resolver
  import opened Repository
  import opened Service
  import opened JsNumbers

  const CreatedMessage: string := "User created successfully"
  const CreationFailedMessage: string := "User creation failed"
  const ProfileFetchedMessage: string := "User profile fetched successfully"

  /** A cookie set with `res.cookie(name, value, { httpOnly })`. */
  datatype Cookie = Cookie(name: string, value: string, httpOnly: bool)

  /** The JSON body `{ statusCode, message, data?, error? }` of both routes. */
  datatype Envelope = Envelope(statusCode: int, message: string, data: Option<User>, error: Option<string>)

  /** The cookie, status and body `signUp` writes for a service outcome. */
  datatype Reply = Reply(cookie: Option<Cookie>, status: int, body: Envelope)

  /**
   * How `signUp` maps the service's outcome: a success sets the httpOnly 'jwt' cookie
   * to the token and answers 201 with the user; any error answers 400 with the
   * error's message and sets no cookie. The body always repeats the status code.
   */
  function SignUpReply(outcome: Result<Registration, Exception>): (r: Reply)
    ensures r.body.statusCode == r.status
    ensures r.cookie.Some? <==> outcome.Success?
    ensures outcome.Success? ==>
      && r.status == 201
      && r.cookie == Some(Cookie("jwt", outcome.value.token, true))
      && r.body.message == "User created successfully"
      && r.body.data == Some(outcome.value.user) && r.body.error == None
    ensures outcome.Failure? ==>
      && r.status == 400
      && r.body.message == "User creation failed"
      && r.body.data == None && r.body.error == Some(outcome.error.message)
  {
    match outcome
    case Success(registration) =>
      Reply(Some(Cookie("jwt", registration.token, true)), 201,
            Envelope(201, CreatedMessage, Some(registration.user), None))
    case Failure(e) =>
      Reply(None, 400, Envelope(400, CreationFailedMessage, None, Some(e.message)))
  }

  /** The part of an Express `Response` the controller writes. */
  class Response {
    var cookies: seq<Cookie>
    var statusCode: int
    var body: Option<Envelope>

    constructor ()
      ensures cookies == [] && statusCode == 200 && body == None
    {
      cookies, statusCode, body := [], 200, None;
    }

    /** `res.cookie(name, value, { httpOnly })` */
    method SetCookie(name: string, value: string, httpOnly: bool)
      modifies this`cookies
      ensures cookies == old(cookies) + [Cookie(name, value, httpOnly)]
    {
      cookies := cookies + [Cookie(name, value, httpOnly)];
    }

    /** `res.status(code)` */
    method SetStatus(code: int)
      modifies this`statusCode
      ensures statusCode == code
    {
      statusCode := code;
    }

    /** `res.json(body)` */
    method SendJson(b: Envelope)
      modifies this`body
      ensures body == Some(b)
    {
      body := Some(b);
    }
  }

  /** One call the controller made on its service, with its argument. */
  datatype ServiceCall = SignUpCall(dto: CreateUserDto) | GetProfileCall(userId: int)

  class UserController {
    const service: UserService
    /** Every call made on the service, oldest first. */
    ghost var serviceCalls: seq<ServiceCall>

    constructor (service: UserService)
      ensures this.service == service && serviceCalls == []
    {
      this.service := service;
      serviceCalls := [];
    }

    /**
     * `signUp(dto, res)`: hands the DTO unchanged to the service, then writes the
     * reply for its outcome onto `res`. `id` is the key the store assigned when the
     * city resolves.
     */
    method SignUp(dto: CreateUserDto, res: Response) returns (ghost id: int)
      requires service.repo.Valid()
      modifies this`serviceCalls, service.repo, res
      ensures service.repo.Valid()
      ensures serviceCalls == old(serviceCalls) + [SignUpCall(dto)]
      ensures ResolveCity(dto.latitude, dto.longitude).None? ==> unchanged(service.repo)
      ensures ResolveCity(dto.latitude, dto.longitude).Some? ==>
        && id !in old(service.repo.rows)
        && service.repo.rows == TableAfterSignUp(old(service.repo.rows), dto, id)
      ensures
        var reply := SignUpReply(SignUpOutcome(dto, service.sign, id));
        && res.cookies == old(res.cookies) + (if reply.cookie.Some? then [reply.cookie.value] else [])
        && res.statusCode == reply.status
        && res.body == Some(reply.body)
    {
      serviceCalls := serviceCalls + [SignUpCall(dto)];
      var outcome;
      outcome, id := service.SignUp(dto);
      match outcome
      case Success(registration) =>
        res.SetCookie("jwt", registration.token, true);
        res.SetStatus(201);
        res.SendJson(Envelope(201, CreatedMessage, Some(registration.user), None));
      case Failure(e) =>
        res.SetStatus(400);
        res.SendJson(Envelope(400, CreationFailedMessage, None, Some(e.message)));
    }

    /**
     * `getProfile(id)`: a path that `parseInt` reads as NaN is NotFound before the
     * service is called; otherwise the service is asked for the parsed id, and the
     * stored user comes back in a 200 envelope, or NotFound. The table is untouched.
     */
    method GetProfile(id: string) returns (r: Result<Envelope, Exception>)
      requires service.repo.Valid()
      modifies this`serviceCalls, service.repo`calls
      ensures service.repo.rows == old(service.repo.rows)
      ensures ParseInt10(id).None? ==>
        && r == Failure(NotFound(UserNotFoundMessage))
        && serviceCalls == old(serviceCalls)
        && service.repo.calls == old(service.repo.calls)
      ensures ParseInt10(id).Some? ==>
        var userId := ParseInt10(id).value;
        && serviceCalls == old(serviceCalls) + [GetProfileCall(userId)]
        && service.repo.calls == old(service.repo.calls) + [FindOneCall(userId)]
        && (userId in service.repo.rows ==>
              r == Success(Envelope(200, "User profile fetched successfully", Some(service.repo.rows[userId]), None)))
        && (userId !in service.repo.rows ==> r == Failure(NotFound("User not found")))
    {
      var userId := ParseInt10(id);
      if userId.None? {
        r := Failure(NotFound(UserNotFoundMessage));
        return;
      }

      serviceCalls := serviceCalls + [GetProfileCall(userId.value)];
      var user := service.GetProfile(userId.value);
      if user.Failure? {
        r := Failure(user.error);
        return;
      }

      r := Success(Envelope(200, ProfileFetchedMessage, Some(user.value), None));
    }
  }

  /**
   * The end-to-end flow: sign up, read the new id from the reply body, then fetch
   * `/user/<id>`: the profile carries exactly the user the sign-up reply carried,
   * with the name and email that were sent.
   */
  method SignUpThenFetchProfile(controller: UserController, dto: CreateUserDto, res: Response)
    returns (profile: Result<Envelope, Exception>)
    requires controller.service.repo.Valid()
    requires ResolveCity(dto.latitude, dto.longitude).Some?
    requires forall p :: controller.service.sign(p).Success?
    modifies controller, controller.service.repo, res
    ensures res.statusCode == 201 && res.body.Some? && res.body.value.data.Some?
    ensures res.body.value.data.value.name == dto.name && res.body.value.data.value.email == dto.email
    ensures profile == Success(Envelope(200, ProfileFetchedMessage, res.body.value.data, None))
  {
    ghost var id := controller.SignUp(dto, res);
    var created := res.body.value.data.value;
    ParseIntOfDecimal(created.id);
    profile := controller.GetProfile(Decimal(created.id));
  }
}
