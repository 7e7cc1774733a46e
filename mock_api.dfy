/** The mock API service of the single-file app (space-travel-app.tsx, class
    `SpaceTravelMockApi`): the planet and spacecraft tables it keeps in local storage and the
    operations that read and change them. Storage is the two table fields; the delay before
    every reply, the clock behind new ids and JSON encoding are not part of the model. */
module MockApi {
  import opened Seqs
  import opened Records
  import JsValues

  const DefaultPictureUrl: string := "https://images.unsplash.com/photo-1446776877081-d282a0f896e2?w=400"
  /** What every id `buildSpacecraft` creates starts with. */
  const IdPrefix: string := "sc-"
  const NotFoundMessage: string := "Spacecraft not found"
  const SameLocationMessage: string := "Target planet is the same as current location"

  const EarthImage: string := "https://images.unsplash.com/photo-1614730321146-b6fa6a46bcb4?w=400"
  const MarsImage: string := "https://images.unsplash.com/photo-1614732414444-096e5f1122d5?w=400"
  const JupiterImage: string := "https://images.unsplash.com/photo-1614732484003-ef9881555dc3?w=400"
  const OdysseyImage: string := "https://images.unsplash.com/photo-1446776877081-d282a0f896e2?w=400"
  const PioneerImage: string := "https://images.unsplash.com/photo-1446776653964-20c1d3a81b06?w=400"
  const OdysseyDescription: string := "A massive colony ship designed for long-distance travel"
  const PioneerDescription: string := "Fast and efficient transport vessel"

  /** The planets `initializeData` stores when storage holds none; Saturn shows Mars's picture. */
  function SeedPlanets(): seq<Planet> {
    [ Planet(1, "Earth", 7800000000, EarthImage),
      Planet(2, "Mars", 0, MarsImage),
      Planet(3, "Jupiter", 0, JupiterImage),
      Planet(4, "Saturn", 0, MarsImage) ]
  }

  /** The spacecraft `initializeData` stores when storage holds none. */
  function SeedSpacecrafts(): seq<Spacecraft> {
    [ Spacecraft("sc-1", "Odyssey", 1000000, OdysseyDescription, OdysseyImage, Some(1)),
      Spacecraft("sc-2", "Pioneer", 500000, PioneerDescription, PioneerImage, Some(1)) ]
  }

  /** The seed tables are well formed: ids are unique, populations and capacities are not
      negative, and every spacecraft is stationed on a planet that exists. */
  lemma SeedTablesWellFormed()
    ensures UniquePlanetIds(SeedPlanets()) && UniqueShipIds(SeedSpacecrafts())
    ensures forall i | 0 <= i < |SeedPlanets()| :: SeedPlanets()[i].currentPopulation >= 0
    ensures forall i | 0 <= i < |SeedSpacecrafts()| :: SeedSpacecrafts()[i].capacity >= 1
    ensures forall i | 0 <= i < |SeedSpacecrafts()| ::
      SeedSpacecrafts()[i].currentLocation.Some?
      && FindPlanet(SeedPlanets(), SeedSpacecrafts()[i].currentLocation.value).Some?
  {
    assert FindPlanet(SeedPlanets(), 1) == Some(0);
  }

  /** `Math.min(capacity, population)`: the number of people one trip moves. */
  function TransferAmount(capacity: int, population: int): (n: int)
    ensures n <= capacity && n <= population
    ensures n == capacity || n == population
  {
    if capacity <= population then capacity else population
  }

  /** Both tables as stored. */
  datatype Tables = Tables(planets: seq<Planet>, spacecrafts: seq<Spacecraft>)

  /** Whenever a dispatch gets past its two checks, the ship's origin and the target are
      planets of the table; the source dereferences `undefined` otherwise. */
  predicate SendDefined(t: Tables, shipId: string, target: int) {
    match FindSpacecraft(t.spacecrafts, shipId)
    case None => true
    case Some(i) =>
      var location := t.spacecrafts[i].currentLocation;
      || location == Some(target)
      || (location.Some? && FindPlanet(t.planets, location.value).Some? && FindPlanet(t.planets, target).Some?)
  }

  /** `after` is `before` with ship `i` stationed on planet id `target`, found at index `d`,
      and `n` people moved from planet `o` to planet `d`; every other record is the same. */
  predicate Moved(before: Tables, after: Tables, i: nat, o: nat, d: nat, target: int, n: int)
    requires i < |before.spacecrafts| && o < |before.planets| && d < |before.planets|
  {
    && |after.planets| == |before.planets|
    && after.planets[o] == before.planets[o].(currentPopulation := before.planets[o].currentPopulation - n)
    && after.planets[d] == before.planets[d].(currentPopulation := before.planets[d].currentPopulation + n)
    && (forall j | 0 <= j < |before.planets| && j != o && j != d :: after.planets[j] == before.planets[j])
    && |after.spacecrafts| == |before.spacecrafts|
    && after.spacecrafts[i] == before.spacecrafts[i].(currentLocation := Some(target))
    && (forall k | 0 <= k < |before.spacecrafts| && k != i :: after.spacecrafts[k] == before.spacecrafts[k])
  }

  /** The reply of a dispatch and the tables it stores. */
  datatype Dispatch = Dispatch(reply: Response<Option<string>>, tables: Tables)

  /** `sendSpacecraftToPlanet` on the stored tables. An unknown ship, or a target equal to the
      ship's location, is an error reply and changes nothing. Otherwise the first ship with
      that id moves to the target and `min(capacity, origin population)` people move with it
      from the origin planet to the target planet. */
  function Send(t: Tables, shipId: string, target: int): (r: Dispatch)
    requires SendDefined(t, shipId, target)
    ensures r.reply.isError <==>
      || FindSpacecraft(t.spacecrafts, shipId).None?
      || t.spacecrafts[FindSpacecraft(t.spacecrafts, shipId).value].currentLocation == Some(target)
    ensures FindSpacecraft(t.spacecrafts, shipId).None? ==>
      r == Dispatch(Response(true, Some(NotFoundMessage)), t)
    ensures FindSpacecraft(t.spacecrafts, shipId).Some? ==>
      var i := FindSpacecraft(t.spacecrafts, shipId).value;
      t.spacecrafts[i].currentLocation == Some(target) ==>
      r == Dispatch(Response(true, Some(SameLocationMessage)), t)
    ensures !r.reply.isError ==>
      var i := FindSpacecraft(t.spacecrafts, shipId).value;
      var ship := t.spacecrafts[i];
      var o := FindPlanet(t.planets, ship.currentLocation.value).value;
      var d := FindPlanet(t.planets, target).value;
      && r.reply.data == None
      && o != d
      && Moved(t, r.tables, i, o, d, target, TransferAmount(ship.capacity, t.planets[o].currentPopulation))
  {
    match FindSpacecraft(t.spacecrafts, shipId)
    case None => Dispatch(Response(true, Some(NotFoundMessage)), t)
    case Some(i) =>
      var ship := t.spacecrafts[i];
      if ship.currentLocation == Some(target) then
        Dispatch(Response(true, Some(SameLocationMessage)), t)
      else
        var o := FindPlanet(t.planets, ship.currentLocation.value).value;
        var d := FindPlanet(t.planets, target).value;
        var n := TransferAmount(ship.capacity, t.planets[o].currentPopulation);
        var p1 := t.planets[o := t.planets[o].(currentPopulation := t.planets[o].currentPopulation - n)];
        var p2 := p1[d := p1[d].(currentPopulation := p1[d].currentPopulation + n)];
        Dispatch(Response(false, None), Tables(p2, t.spacecrafts[i := ship.(currentLocation := Some(target))]))
  }

  /** A dispatch that gets past its checks, as the three updates the service makes in turn. */
  lemma SendSteps(t: Tables, shipId: string, target: int, i: nat, o: nat, d: nat)
    requires SendDefined(t, shipId, target)
    requires FindSpacecraft(t.spacecrafts, shipId) == Some(i)
    requires t.spacecrafts[i].currentLocation != Some(target)
    requires FindPlanet(t.planets, t.spacecrafts[i].currentLocation.value) == Some(o)
    requires FindPlanet(t.planets, target) == Some(d)
    ensures var n := TransferAmount(t.spacecrafts[i].capacity, t.planets[o].currentPopulation);
      var p1 := t.planets[o := t.planets[o].(currentPopulation := t.planets[o].currentPopulation - n)];
      var p2 := p1[d := p1[d].(currentPopulation := p1[d].currentPopulation + n)];
      Send(t, shipId, target)
        == Dispatch(Response(false, None), Tables(p2, t.spacecrafts[i := t.spacecrafts[i].(currentLocation := Some(target))]))
  {
  }

  /** A dispatch neither creates nor loses people: the total over all planets is unchanged. */
  lemma SendConservesPopulation(t: Tables, shipId: string, target: int)
    requires SendDefined(t, shipId, target)
    ensures TotalPopulation(Send(t, shipId, target).tables.planets) == TotalPopulation(t.planets)
  {
    var r := Send(t, shipId, target);
    if !r.reply.isError {
      var i := FindSpacecraft(t.spacecrafts, shipId).value;
      var ship := t.spacecrafts[i];
      var o := FindPlanet(t.planets, ship.currentLocation.value).value;
      var d := FindPlanet(t.planets, target).value;
      var n := TransferAmount(ship.capacity, t.planets[o].currentPopulation);
      var p1 := t.planets[o := t.planets[o].(currentPopulation := t.planets[o].currentPopulation - n)];
      TotalPopulationUpdate(t.planets, o, p1[o]);
      TotalPopulationUpdate(p1, d, r.tables.planets[d]);
      assert r.tables.planets == p1[d := r.tables.planets[d]];
    }
  }

  /** When no population and no capacity is negative, no population becomes negative: the
      origin loses at most what it has and the target gains a non-negative amount. */
  lemma SendKeepsPopulationsNonNegative(t: Tables, shipId: string, target: int)
    requires SendDefined(t, shipId, target)
    requires forall j | 0 <= j < |t.planets| :: t.planets[j].currentPopulation >= 0
    requires forall k | 0 <= k < |t.spacecrafts| :: t.spacecrafts[k].capacity >= 0
    ensures var after := Send(t, shipId, target).tables.planets;
      forall j | 0 <= j < |after| :: after[j].currentPopulation >= 0
  {
    var r := Send(t, shipId, target);
    if !r.reply.isError {
      var i := FindSpacecraft(t.spacecrafts, shipId).value;
      var o := FindPlanet(t.planets, t.spacecrafts[i].currentLocation.value).value;
      var d := FindPlanet(t.planets, target).value;
      forall j | 0 <= j < |r.tables.planets| ensures r.tables.planets[j].currentPopulation >= 0 {
        if j != o && j != d {
          assert r.tables.planets[j] == t.planets[j];
        }
      }
    }
  }

  /** The record `buildSpacecraft` creates: id `sc-` followed by the clock reading `now`, the
      parsed capacity, the default picture when none is given, stationed on planet 1. */
  function BuiltRecord(name: string, capacity: string, description: string, pictureUrl: string, now: nat): (r: Spacecraft)
    requires JsValues.ParseInt(capacity).Some?
    ensures r.pictureUrl != ""
    ensures pictureUrl != "" ==> r.pictureUrl == pictureUrl
  {
    Spacecraft(
      IdPrefix + JsValues.NatToString(now),
      name,
      JsValues.ParseInt(capacity).value,
      description,
      if pictureUrl == "" then DefaultPictureUrl else pictureUrl,
      Some(1))
  }

  /** The mock service: its two fields are what local storage holds under the keys
      `planets` and `spacecrafts`. */
  class SpaceTravelMockApi {
    var planets: seq<Planet>
    var spacecrafts: seq<Spacecraft>

    /** `initializeData`: a table already in storage is kept, a missing one is seeded. */
    constructor (storedPlanets: Option<seq<Planet>>, storedSpacecrafts: Option<seq<Spacecraft>>)
      ensures planets == if storedPlanets.Some? then storedPlanets.value else SeedPlanets()
      ensures spacecrafts == if storedSpacecrafts.Some? then storedSpacecrafts.value else SeedSpacecrafts()
    {
      planets := if storedPlanets.Some? then storedPlanets.value else SeedPlanets();
      spacecrafts := if storedSpacecrafts.Some? then storedSpacecrafts.value else SeedSpacecrafts();
    }

    function Stored(): Tables
      reads this
    {
      Tables(planets, spacecrafts)
    }

    method GetPlanets() returns (r: Response<seq<Planet>>)
      ensures r == Response(false, planets)
    {
      r := Response(false, planets);
    }

    method GetSpacecrafts() returns (r: Response<seq<Spacecraft>>)
      ensures r == Response(false, spacecrafts)
    {
      r := Response(false, spacecrafts);
    }

    /** The first spacecraft with the id, or an error reply with no data when none has it. */
    method GetSpacecraftById(id: string) returns (r: Response<Option<Spacecraft>>)
      ensures r.isError <==> forall k | 0 <= k < |spacecrafts| :: spacecrafts[k].id != id
      ensures r.isError ==> r.data == None
      ensures !r.isError ==> r.data.Some? && r.data.value.id == id && r.data.value in spacecrafts
      ensures !r.isError ==> exists k | 0 <= k < |spacecrafts| ::
        (spacecrafts[k] == r.data.value && forall j | 0 <= j < k :: spacecrafts[j].id != id)
    {
      match FindSpacecraft(spacecrafts, id)
      case None =>
        r := Response(true, None);
      case Some(k) =>
        r := Response(false, Some(spacecrafts[k]));
    }

    /** Appends one new record and returns it; the earlier records stay as they were. */
    method BuildSpacecraft(name: string, capacity: string, description: string, pictureUrl: string, now: nat)
      returns (r: Response<Spacecraft>)
      requires JsValues.ParseInt(capacity).Some?
      modifies this
      ensures !r.isError
      ensures r.data.id == IdPrefix + JsValues.NatToString(now)
      ensures r.data.name == name && r.data.description == description
      ensures r.data.capacity == JsValues.ParseInt(capacity).value
      ensures r.data.pictureUrl == if pictureUrl == "" then DefaultPictureUrl else pictureUrl
      ensures r.data.currentLocation == Some(1)
      ensures r.data == BuiltRecord(name, capacity, description, pictureUrl, now)
      ensures spacecrafts == old(spacecrafts) + [r.data]
      ensures planets == old(planets)
    {
      var newSpacecraft := BuiltRecord(name, capacity, description, pictureUrl, now);
      spacecrafts := spacecrafts + [newSpacecraft];
      r := Response(false, newSpacecraft);
    }

    /** Removes every spacecraft with the id and reports success, whether or not one had it. */
    method DestroySpacecraftById(id: string) returns (r: Response<Option<string>>)
      modifies this
      ensures r == Response(false, None)
      ensures spacecrafts == WithoutSpacecraft(old(spacecrafts), id)
      ensures planets == old(planets)
    {
      spacecrafts := WithoutSpacecraft(spacecrafts, id);
      r := Response(false, None);
    }

    /** `sendSpacecraftToPlanet`: the found ship and both planet records are updated in place. */
    method SendSpacecraftToPlanet(spacecraftId: string, targetPlanetId: int) returns (r: Response<Option<string>>)
      requires SendDefined(Stored(), spacecraftId, targetPlanetId)
      modifies this
      ensures Dispatch(r, Stored()) == Send(old(Stored()), spacecraftId, targetPlanetId)
    {
      var found := FindSpacecraft(spacecrafts, spacecraftId);
      if found.None? {
        return Response(true, Some(NotFoundMessage));
      }
      var i := found.value;
      if spacecrafts[i].currentLocation == Some(targetPlanetId) {
        return Response(true, Some(SameLocationMessage));
      }
      var o := FindPlanet(planets, spacecrafts[i].currentLocation.value).value;
      var d := FindPlanet(planets, targetPlanetId).value;
      SendSteps(Stored(), spacecraftId, targetPlanetId, i, o, d);
      var transferAmount := TransferAmount(spacecrafts[i].capacity, planets[o].currentPopulation);
      planets := planets[o := planets[o].(currentPopulation := planets[o].currentPopulation - transferAmount)];
      planets := planets[d := planets[d].(currentPopulation := planets[d].currentPopulation + transferAmount)];
      spacecrafts := spacecrafts[i := spacecrafts[i].(currentLocation := Some(targetPlanetId))];
      r := Response(false, None);
    }
  }

  /** The id of a built record carries its clock reading: after the prefix, `parseInt` reads
      back exactly the reading it was built at. */
  lemma BuiltIdReadsBack(now: nat)
    ensures var id := IdPrefix + JsValues.NatToString(now);
      id[..|IdPrefix|] == IdPrefix && JsValues.ParseInt(id[|IdPrefix|..]) == Some(now)
  {
    var digits := JsValues.NatToString(now);
    assert (IdPrefix + digits)[|IdPrefix|..] == digits;
    JsValues.ParseIntNatToString(now);
  }

  /** Ids built from different clock readings differ, so records built at different times
      never share an id. */
  lemma BuiltIdsDiffer(earlier: nat, now: nat)
    requires earlier != now
    ensures IdPrefix + JsValues.NatToString(earlier) != IdPrefix + JsValues.NatToString(now)
  {
    var a, b := IdPrefix + JsValues.NatToString(earlier), IdPrefix + JsValues.NatToString(now);
    if a == b {
      assert a[3..] == JsValues.NatToString(earlier) && b[3..] == JsValues.NatToString(now);
      JsValues.NatToStringInjective(earlier, now);
    }
  }
}
