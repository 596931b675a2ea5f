/**
 * `CreateUserDto`: the registration request body and the class-validator
 * constraints declared on its fields. `IsEmail` is a parameter `isEmail`, because its
 * implementation belongs to the validation library.
 */
module Dto {

  datatype CreateUserDto = CreateUserDto(name: string, email: string, latitude: real, longitude: real)

  /** The properties of the DTO, in declaration order. */
  datatype Property = Name | Email | Latitude | Longitude

  const LatitudeMin: real := 22.0
  const LatitudeMax: real := 31.5
  const LongitudeMin: real := 25.0
  const LongitudeMax: real := 35.0

  /** `@Min(lo) @Max(hi)`: both bounds inclusive. */
  predicate Within(x: real, lo: real, hi: real)
  {
    lo <= x <= hi
  }

  /**
   * The properties whose constraints the DTO violates, in declaration order:
   * `IsNotEmpty` on name, `IsEmail` on email, `Min(22)`/`Max(31.5)` on latitude and
   * `Min(25)`/`Max(35)` on longitude.
   */
  function Violations(dto: CreateUserDto, isEmail: string -> bool): (r: seq<Property>)
    ensures Name in r <==> dto.name == ""
    ensures Email in r <==> !isEmail(dto.email)
    ensures Latitude in r <==> !(22.0 <= dto.latitude <= 31.5)
    ensures Longitude in r <==> !(25.0 <= dto.longitude <= 35.0)
    ensures |r| <= 4
  {
    (if dto.name == "" then [Name] else [])
    + (if isEmail(dto.email) then [] else [Email])
    + (if Within(dto.latitude, LatitudeMin, LatitudeMax) then [] else [Latitude])
    + (if Within(dto.longitude, LongitudeMin, LongitudeMax) then [] else [Longitude])
  }

  /** A DTO passes validation when it violates no constraint. */
  predicate Valid(dto: CreateUserDto, isEmail: string -> bool)
  {
    Violations(dto, isEmail) == []
  }

  /** Validity is the conjunction of the four field constraints. */
  lemma ValidIffAllConstraints(dto: CreateUserDto, isEmail: string -> bool)
    ensures Valid(dto, isEmail) <==>
      && dto.name != ""
      && isEmail(dto.email)
      && 22.0 <= dto.latitude <= 31.5
      && 25.0 <= dto.longitude <= 35.0
  {
  }

  /**
   * The controller test's invalid request (empty name, 'not-an-email', latitude 100,
   * longitude 200) violates every constraint, given that the email predicate rejects
   * 'not-an-email'.
   */
  lemma InvalidExampleViolatesEveryConstraint(isEmail: string -> bool)
    requires !isEmail("not-an-email")
    ensures Violations(CreateUserDto("", "not-an-email", 100.0, 200.0), isEmail)
      == [Name, Email, Latitude, Longitude]
  {
  }
}
