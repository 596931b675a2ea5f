/**
 * `UserService.getMockCityFromCoordinates`: a fixed, ordered table of axis-aligned
 * boxes (Cairo, then Alexandria, then Giza). The first box that holds the point
 * wins; a point in no box resolves to null. Bounds are inclusive and coordinates are
 * exact reals, since the resolver only compares.
 */
module Resolver {
  import opened Wrappers
  import opened Entities

  /** A closed latitude/longitude rectangle. */
  datatype Box = Box(latMin: real, latMax: real, lonMin: real, lonMax: real)

  predicate InBox(b: Box, lat: real, lon: real)
  {
    b.latMin <= lat <= b.latMax && b.lonMin <= lon <= b.lonMax
  }

  /** The box each city is tested against. */
  function BoxOf(c: City): Box
  {
    match c
    case Cairo => Box(29.5, 31.0, 30.5, 31.7)
    case Alexandria => Box(30.7, 31.5, 29.0, 30.7)
    case Giza => Box(28.5, 30.0, 30.5, 32.5)
  }

  /** The order in which the boxes are tried. */
  const Table: seq<City> := [Cairo, Alexandria, Giza]

  /** The position of a city in `Table`. */
  function Rank(c: City): nat
  {
    match c
    case Cairo => 0
    case Alexandria => 1
    case Giza => 2
  }

  /**
   * The resolver as the source writes it: an if / else-if chain of comparisons.
   * Its contract is first-match-wins over the table: the chosen city's box holds the
   * point and no box tried before it does; null means no box holds the point.
   */
  function ResolveCity(latitude: real, longitude: real): (r: Option<City>)
    ensures r.Some? ==> InBox(BoxOf(r.value), latitude, longitude)
    ensures r.Some? ==> forall c :: Rank(c) < Rank(r.value) ==> !InBox(BoxOf(c), latitude, longitude)
    ensures r.None? <==> forall c :: !InBox(BoxOf(c), latitude, longitude)
  {
    if latitude >= 29.5 && latitude <= 31.0 && longitude >= 30.5 && longitude <= 31.7 then
      Some(Cairo)
    else if latitude >= 30.7 && latitude <= 31.5 && longitude >= 29.0 && longitude <= 30.7 then
      Some(Alexandria)
    else if latitude >= 28.5 && latitude <= 30.0 && longitude >= 30.5 && longitude <= 32.5 then
      Some(Giza)
    else
      None
  }

  /** Generic first-match lookup over an ordered table of cities. */
  function FirstMatch(table: seq<City>, latitude: real, longitude: real): Option<City>
  {
    if table == [] then None
    else if InBox(BoxOf(table[0]), latitude, longitude) then Some(table[0])
    else FirstMatch(table[1..], latitude, longitude)
  }

  /**
   * What first-match means for any table: the result is the entry at some position
   * whose box holds the point while no earlier entry's box does; null when no
   * entry's box holds the point.
   */
  lemma {:induction false} FirstMatchSpec(table: seq<City>, latitude: real, longitude: real)
    ensures FirstMatch(table, latitude, longitude).None? <==>
      forall i | 0 <= i < |table| :: !InBox(BoxOf(table[i]), latitude, longitude)
    ensures FirstMatch(table, latitude, longitude).Some? ==>
      exists i | 0 <= i < |table| ::
        && table[i] == FirstMatch(table, latitude, longitude).value
        && InBox(BoxOf(table[i]), latitude, longitude)
        && forall j | 0 <= j < i :: !InBox(BoxOf(table[j]), latitude, longitude)
  {
    if table != [] && !InBox(BoxOf(table[0]), latitude, longitude) {
      var rest := table[1..];
      FirstMatchSpec(rest, latitude, longitude);
      if FirstMatch(rest, latitude, longitude).Some? {
        var i :| 0 <= i < |rest| && rest[i] == FirstMatch(rest, latitude, longitude).value
          && InBox(BoxOf(rest[i]), latitude, longitude)
          && forall j | 0 <= j < i :: !InBox(BoxOf(rest[j]), latitude, longitude);
        assert table[i + 1] == rest[i];
        assert forall j | 0 <= j < i + 1 :: !InBox(BoxOf(table[j]), latitude, longitude) by {
          forall j | 0 <= j < i + 1 ensures !InBox(BoxOf(table[j]), latitude, longitude) {
            if j > 0 { assert table[j] == rest[j - 1]; }
          }
        }
      } else {
        forall i | 0 <= i < |table| ensures !InBox(BoxOf(table[i]), latitude, longitude) {
          if i > 0 { assert table[i] == rest[i - 1]; }
        }
      }
    } else if table != [] {
      assert table[0] == FirstMatch(table, latitude, longitude).value;
    }
  }

  /** The if / else-if chain is exactly first-match over Cairo, Alexandria, Giza. */
  lemma ResolveCityIsFirstMatch(latitude: real, longitude: real)
    ensures ResolveCity(latitude, longitude) == FirstMatch(Table, latitude, longitude)
  {
    var p, q := latitude, longitude;
    assert [Giza][1..] == [];
    assert FirstMatch([Giza], p, q) == if InBox(BoxOf(Giza), p, q) then Some(Giza) else None;
    assert [Alexandria, Giza][1..] == [Giza];
    assert FirstMatch([Alexandria, Giza], p, q)
      == if InBox(BoxOf(Alexandria), p, q) then Some(Alexandria) else FirstMatch([Giza], p, q);
    assert Table[1..] == [Alexandria, Giza];
  }

  /** Any point of the Cairo box resolves to Cairo, also where it overlaps the others. */
  lemma CairoWins(latitude: real, longitude: real)
    requires 29.5 <= latitude <= 31.0 && 30.5 <= longitude <= 31.7
    ensures ResolveCity(latitude, longitude) == Some(Cairo)
  {
  }

  /** Alexandria exactly outside the Cairo box and inside lat [30.7, 31.5] x lon [29.0, 30.7]. */
  lemma AlexandriaIff(latitude: real, longitude: real)
    ensures ResolveCity(latitude, longitude) == Some(Alexandria) <==>
      && !InBox(BoxOf(Cairo), latitude, longitude)
      && 30.7 <= latitude <= 31.5 && 29.0 <= longitude <= 30.7
  {
  }

  /** Giza exactly outside the Cairo and Alexandria boxes and inside lat [28.5, 30.0] x lon [30.5, 32.5]. */
  lemma GizaIff(latitude: real, longitude: real)
    ensures ResolveCity(latitude, longitude) == Some(Giza) <==>
      && !InBox(BoxOf(Cairo), latitude, longitude)
      && !InBox(BoxOf(Alexandria), latitude, longitude)
      && 28.5 <= latitude <= 30.0 && 30.5 <= longitude <= 32.5
  {
  }

  /**
   * The boxes do overlap, so the order matters: (30.8, 30.6) lies in the Cairo and
   * Alexandria boxes and (29.8, 31.0) in the Cairo and Giza boxes; both resolve to
   * Cairo. The Alexandria and Giza boxes are disjoint.
   */
  lemma OverlapsResolveToCairo()
    ensures InBox(BoxOf(Cairo), 30.8, 30.6) && InBox(BoxOf(Alexandria), 30.8, 30.6)
    ensures ResolveCity(30.8, 30.6) == Some(Cairo)
    ensures InBox(BoxOf(Cairo), 29.8, 31.0) && InBox(BoxOf(Giza), 29.8, 31.0)
    ensures ResolveCity(29.8, 31.0) == Some(Cairo)
    ensures forall lat, lon :: !(InBox(BoxOf(Alexandria), lat, lon) && InBox(BoxOf(Giza), lat, lon))
  {
  }

  /** The test's far-away point (40.0, 50.0) and the registration example (30.05, 31.15). */
  lemma ResolveExamples()
    ensures ResolveCity(40.0, 50.0) == None
    ensures ResolveCity(30.05, 31.15) == Some(Cairo)
  {
  }
}
