/** The fleet page (SpacecraftsPage.jsx): the spacecraft and planet lists it fetches, the
    delete handler that removes a spacecraft from the list before the service answers and
    puts the list back when the service fails, and the cards that show each spacecraft with
    the name of its planet. */
module SpacecraftsPage {
  import opened Seqs
  import opened Records

  const UnknownPlanet: string := "Unknown"
  const ShipsFailedMessage: string := "Failed to load spacecrafts."
  const ShipsThrewMessage: string := "An error occurred while fetching spacecrafts."
  const PlanetsFailedMessage: string := "Failed to load planets."
  const PlanetsThrewMessage: string := "An error occurred while fetching planets."

  /** `getPlanetNameById`: the name of the first planet with the id, or `Unknown`; a location
      of `null` matches no planet. */
  function PlanetNameById(planets: seq<Planet>, id: Option<int>): (r: string)
    ensures id.None? ==> r == UnknownPlanet
    ensures id.Some? && FindPlanet(planets, id.value).None? ==> r == UnknownPlanet
    ensures id.Some? && FindPlanet(planets, id.value).Some? ==>
      r == planets[FindPlanet(planets, id.value).value].name
  {
    match id
    case None => UnknownPlanet
    case Some(planetId) =>
      match FindPlanet(planets, planetId)
      case None => UnknownPlanet
      case Some(j) => planets[j].name
  }

  /** When planet ids are unique, a ship's card names the one planet with its location id. */
  lemma PlanetNameOfLocation(planets: seq<Planet>, j: nat)
    requires UniquePlanetIds(planets) && j < |planets|
    ensures PlanetNameById(planets, Some(planets[j].id)) == planets[j].name
  {
    var k := FindPlanet(planets, planets[j].id).value;
    assert planets[k].id == planets[j].id;
  }

  /** What a card shows: the spacecraft's fields, with the location given as a planet name. */
  datatype Card = Card(
    id: string,
    name: string,
    capacity: int,
    description: string,
    pictureUrl: string,
    currentLocation: string)

  /** `{ ...spacecraft, currentLocation: getPlanetNameById(spacecraft.currentLocation) }`. */
  function CardData(ship: Spacecraft, planets: seq<Planet>): (c: Card)
    ensures c.currentLocation == PlanetNameById(planets, ship.currentLocation)
  {
    Card(ship.id, ship.name, ship.capacity, ship.description, ship.pictureUrl,
         PlanetNameById(planets, ship.currentLocation))
  }

  /** The spacecraft a card shows, given back the location the card replaced. */
  function ShipOfCard(c: Card, location: Option<int>): Spacecraft {
    Spacecraft(c.id, c.name, c.capacity, c.description, c.pictureUrl, location)
  }

  /** A card keeps every field but the location: the spacecraft comes back from it unchanged. */
  lemma CardKeepsOtherFields(ship: Spacecraft, planets: seq<Planet>)
    ensures ShipOfCard(CardData(ship, planets), ship.currentLocation) == ship
  {
  }

  /** One card per spacecraft, in the list's order. */
  function Cards(ships: seq<Spacecraft>, planets: seq<Planet>): (r: seq<Card>)
    ensures |r| == |ships|
    ensures forall i | 0 <= i < |ships| :: r[i] == CardData(ships[i], planets)
  {
    if ships == [] then [] else [CardData(ships[0], planets)] + Cards(ships[1..], planets)
  }

  /** The page's state: both lists, the loading flag and the one message it shows. */
  class Page {
    var spacecrafts: seq<Spacecraft>
    var planets: seq<Planet>
    var loading: bool
    var error: string

    constructor ()
      ensures spacecrafts == [] && planets == [] && loading && error == ""
    {
      spacecrafts := [];
      planets := [];
      loading := true;
      error := "";
    }

    /** `fetchSpacecrafts` with the outcome of its request; it clears the message first. */
    method FetchSpacecrafts(res: Call<seq<Spacecraft>>)
      modifies this
      ensures !loading && planets == old(planets)
      ensures res.Threw? ==> error == ShipsThrewMessage && spacecrafts == old(spacecrafts)
      ensures res.Returned? && res.response.isError ==>
        error == ShipsFailedMessage && spacecrafts == old(spacecrafts)
      ensures res.Succeeded() ==> error == "" && spacecrafts == res.response.data
    {
      loading := true;
      error := "";
      if res.Threw? {
        error := ShipsThrewMessage;
      } else if !res.response.isError {
        spacecrafts := res.response.data;
      } else {
        error := ShipsFailedMessage;
      }
      loading := false;
    }

    /** `fetchPlanets` with the outcome of its request; it leaves an earlier message alone. */
    method FetchPlanets(res: Call<seq<Planet>>)
      modifies this
      ensures !loading && spacecrafts == old(spacecrafts)
      ensures res.Threw? ==> error == PlanetsThrewMessage && planets == old(planets)
      ensures res.Returned? && res.response.isError ==>
        error == PlanetsFailedMessage && planets == old(planets)
      ensures res.Succeeded() ==> error == old(error) && planets == res.response.data
    {
      loading := true;
      if res.Threw? {
        error := PlanetsThrewMessage;
      } else if !res.response.isError {
        planets := res.response.data;
      } else {
        error := PlanetsFailedMessage;
      }
      loading := false;
    }

    /** The part of `handleDelete` before the call: unless the confirmation is declined, the
        list is saved and every spacecraft with the id is removed from it at once. */
    method BeginDelete(id: string, confirmed: bool) returns (previous: Option<seq<Spacecraft>>)
      modifies this
      ensures !confirmed ==> previous.None? && spacecrafts == old(spacecrafts)
      ensures confirmed ==>
        previous == Some(old(spacecrafts)) && spacecrafts == WithoutSpacecraft(old(spacecrafts), id)
      ensures planets == old(planets) && loading == old(loading) && error == old(error)
    {
      if !confirmed {
        return None;
      }
      previous := Some(spacecrafts);
      spacecrafts := WithoutSpacecraft(spacecrafts, id);
    }

    /** The part of `handleDelete` after the call: a reply that reports an error, or a call
        that throws, puts the saved list back. */
    method FinishDelete(previous: seq<Spacecraft>, outcome: Call<Option<string>>)
      modifies this
      ensures outcome.Succeeded() ==> spacecrafts == old(spacecrafts)
      ensures !outcome.Succeeded() ==> spacecrafts == previous
      ensures planets == old(planets) && loading == old(loading) && error == old(error)
    {
      if !outcome.Succeeded() {
        spacecrafts := previous;
      }
    }

    /** `handleDelete(id)` as one step, given the confirmation answer and how the call ended. */
    method HandleDelete(id: string, confirmed: bool, outcome: Call<Option<string>>)
      modifies this
      ensures !confirmed || !outcome.Succeeded() ==> spacecrafts == old(spacecrafts)
      ensures confirmed && outcome.Succeeded() ==> spacecrafts == WithoutSpacecraft(old(spacecrafts), id)
      ensures planets == old(planets) && loading == old(loading) && error == old(error)
    {
      var previous := BeginDelete(id, confirmed);
      if previous.Some? {
        FinishDelete(previous.value, outcome);
      }
    }
  }
}
