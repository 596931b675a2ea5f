/**
 * `UserService`: registration (resolve the city, create and save the user, sign a
 * token over its id and email) and profile lookup, over the user repository and an
 * opaque token signer.
 */
module Service {
  import opened Wrappers
  import opened Exceptions
  import opened Entities
  import opened Dto
  import opened Resolver
  import opened Repository

  const CityNotDeterminedMessage: string := "Could not determine the city from the provided coordinates."
  const UserNotFoundMessage: string := "User not found"

  /** The JWT payload `{ id, email }`. */
  datatype Payload = Payload(id: int, email: string)

  /** The `{ user, token }` pair `signUp` returns. */
  datatype Registration = Registration(user: User, token: string)

  /**
   * What `signUp` returns when the store assigns `id` to the new user: BadRequest if
   * the city does not resolve; otherwise the persisted user with the token signed over
   * its id and email, or the signer's error.
   */
  function SignUpOutcome(dto: CreateUserDto, sign: Payload -> Result<string, string>, id: int)
    : (r: Result<Registration, Exception>)
    ensures ResolveCity(dto.latitude, dto.longitude).None? <==> r == Failure(BadRequest(CityNotDeterminedMessage))
    ensures r.Success? ==>
      && r.value.user == User(id, dto.name, dto.email, ResolveCity(dto.latitude, dto.longitude).value)
      && sign(Payload(r.value.user.id, r.value.user.email)) == Success(r.value.token)
    ensures r.Failure? && r.error.Error? ==>
      && ResolveCity(dto.latitude, dto.longitude).Some?
      && sign(Payload(id, dto.email)) == Failure(r.error.message)
    ensures ResolveCity(dto.latitude, dto.longitude).Some? && sign(Payload(id, dto.email)).Success? ==>
      r == Success(Registration(User(id, dto.name, dto.email, ResolveCity(dto.latitude, dto.longitude).value),
                                sign(Payload(id, dto.email)).value))
    ensures ResolveCity(dto.latitude, dto.longitude).Some? && sign(Payload(id, dto.email)).Failure? ==>
      r == Failure(Error(sign(Payload(id, dto.email)).error))
    ensures r.Failure? ==> r.error.BadRequest? || r.error.Error?
  {
    match ResolveCity(dto.latitude, dto.longitude)
    case None => Failure(BadRequest(CityNotDeterminedMessage))
    case Some(city) =>
      var user := User(id, dto.name, dto.email, city);
      match sign(Payload(user.id, user.email))
      case Success(token) => Success(Registration(user, token))
      case Failure(message) => Failure(Error(message))
  }

  /**
   * The table after `signUp` when the store assigns the fresh key `id`: unchanged if
   * the city does not resolve, otherwise one more row. The row stays even when
   * signing fails afterwards: nothing rolls the save back.
   */
  function TableAfterSignUp(rows: map<int, User>, dto: CreateUserDto, id: int): (r: map<int, User>)
    requires id !in rows
    ensures ResolveCity(dto.latitude, dto.longitude).None? ==> r == rows
    ensures ResolveCity(dto.latitude, dto.longitude).Some? ==>
      && |r| == |rows| + 1
      && r.Keys == rows.Keys + {id}
      && r[id] == User(id, dto.name, dto.email, ResolveCity(dto.latitude, dto.longitude).value)
      && forall k | k in rows :: r[k] == rows[k]
  {
    match ResolveCity(dto.latitude, dto.longitude)
    case None => rows
    case Some(city) => rows[id := User(id, dto.name, dto.email, city)]
  }

  /** What `getProfile` returns for a table: the row under that id, else NotFound. */
  function Lookup(rows: map<int, User>, userId: int): (r: Result<User, Exception>)
    ensures r.Success? <==> userId in rows
    ensures r.Success? ==> r.value == rows[userId]
    ensures r.Failure? ==> r.error == NotFound("User not found")
  {
    if userId in rows then Success(rows[userId]) else Failure(NotFound(UserNotFoundMessage))
  }

  /**
   * A lookup of the id a successful registration was given returns exactly the user
   * the registration returned; lookups of every other id are as before.
   */
  lemma LookupAfterSignUp(rows: map<int, User>, dto: CreateUserDto,
                          sign: Payload -> Result<string, string>, id: int, other: int)
    requires id !in rows
    requires SignUpOutcome(dto, sign, id).Success?
    requires other != id
    ensures Lookup(TableAfterSignUp(rows, dto, id), id) == Success(SignUpOutcome(dto, sign, id).value.user)
    ensures Lookup(TableAfterSignUp(rows, dto, id), other) == Lookup(rows, other)
  {
  }

  /**
   * Every box lies inside the range the DTO accepts, yet the range holds points that
   * no box covers: validation does not make the city resolvable.
   */
  lemma ResolvedPointsPassRangeChecks(latitude: real, longitude: real)
    ensures ResolveCity(latitude, longitude).Some? ==>
      Within(latitude, LatitudeMin, LatitudeMax) && Within(longitude, LongitudeMin, LongitudeMax)
    ensures Within(22.0, LatitudeMin, LatitudeMax) && Within(25.0, LongitudeMin, LongitudeMax)
      && ResolveCity(22.0, 25.0) == None
  {
  }

  class UserService {
    const repo: UserRepository
    const sign: Payload -> Result<string, string>

    constructor (repo: UserRepository, sign: Payload -> Result<string, string>)
      ensures this.repo == repo && this.sign == sign
    {
      this.repo := repo;
      this.sign := sign;
    }

    /**
     * `signUp(dto)`. `id` is the key the store assigned (meaningful when the city
     * resolves). Unresolved: BadRequest, and the repository is not called at all.
     * Resolved: exactly one `create` and one `save` of the DTO's name and email with
     * the resolved city, one new row under a fresh key, and the outcome above.
     */
    method SignUp(dto: CreateUserDto) returns (r: Result<Registration, Exception>, ghost id: int)
      requires repo.Valid()
      modifies repo
      ensures repo.Valid()
      ensures ResolveCity(dto.latitude, dto.longitude).None? ==>
        && r == Failure(BadRequest(CityNotDeterminedMessage))
        && unchanged(repo)
      ensures ResolveCity(dto.latitude, dto.longitude).Some? ==>
        var fields := UserFields(dto.name, dto.email, ResolveCity(dto.latitude, dto.longitude).value);
        && id !in old(repo.rows)
        && repo.rows == TableAfterSignUp(old(repo.rows), dto, id)
        && repo.calls == old(repo.calls) + [CreateCall(fields), SaveCall(fields, None)]
      ensures r == SignUpOutcome(dto, sign, id)
    {
      var city := ResolveCity(dto.latitude, dto.longitude);
      if city.None? {
        id := 0;
        r := Failure(BadRequest(CityNotDeterminedMessage));
        return;
      }

      var user := repo.Create(UserFields(dto.name, dto.email, city.value));
      repo.Save(user);
      id := user.id.value;

      var payload := Payload(user.id.value, user.email);
      var signed := sign(payload);
      match signed
      case Success(token) =>
        r := Success(Registration(user.Row(), token));
      case Failure(message) =>
        r := Failure(Error(message));
    }

    /** `getProfile(userId)`: the stored row unchanged, or NotFound; the table is untouched. */
    method GetProfile(userId: int) returns (r: Result<User, Exception>)
      requires repo.Valid()
      modifies repo`calls
      ensures r == Lookup(repo.rows, userId)
      ensures r.Success? ==> r.value.id == userId
      ensures repo.rows == old(repo.rows)
      ensures repo.calls == old(repo.calls) + [FindOneCall(userId)]
    {
      var user := repo.FindOne(userId);
      if user.None? {
        r := Failure(NotFound(UserNotFoundMessage));
        return;
      }
      r := Success(user.value);
    }
  }

  /**
   * Registration followed by a lookup of the returned user's id returns exactly the
   * registered user, when the city resolves and signing succeeds.
   */
  method SignUpThenGetProfile(service: UserService, dto: CreateUserDto)
    returns (registered: Registration, profile: Result<User, Exception>)
    requires service.repo.Valid()
    requires ResolveCity(dto.latitude, dto.longitude).Some?
    requires forall p :: service.sign(p).Success?
    modifies service.repo
    ensures profile == Success(registered.user)
    ensures registered.user.name == dto.name && registered.user.email == dto.email
  {
    var r, id := service.SignUp(dto);
    registered := r.value;
    profile := service.GetProfile(registered.user.id);
  }
}
