/** The two tables of the fleet simulation, the reply shape every API call returns, and the
    table queries both front ends share. */
module Records {
  import opened Seqs

  /** A planet; populations are unbounded integers (Earth starts at 7,800,000,000). */
  datatype Planet = Planet(id: int, name: string, currentPopulation: int, pictureUrl: string)

  /** A spacecraft; `currentLocation` is a planet id, or `None` for JavaScript's `null`. */
  datatype Spacecraft = Spacecraft(
    id: string,
    name: string,
    capacity: int,
    description: string,
    pictureUrl: string,
    currentLocation: Option<int>)

  /** The `{ isError, data }` object every API call resolves to. */
  datatype Response<T> = Response(isError: bool, data: T)

  /** How an awaited call ended: it resolved to a response, or it threw. */
  datatype Call<T> = Returned(response: Response<T>) | Threw {
    /** The response resolved and does not report an error. */
    predicate Succeeded() {
      Returned? && !response.isError
    }
  }

  /** The spacecraft stationed on a planet: `spacecrafts.filter(s => s.currentLocation === planetId)`. */
  function ShipsAt(ships: seq<Spacecraft>, planetId: int): (r: seq<Spacecraft>)
    ensures forall i | 0 <= i < |r| :: r[i] in ships && r[i].currentLocation == Some(planetId)
    ensures forall i | 0 <= i < |ships| && ships[i].currentLocation == Some(planetId) :: ships[i] in r
  {
    Filter(ships, (s: Spacecraft) => s.currentLocation == Some(planetId))
  }

  /** The list without the spacecraft with the given id: `spacecrafts.filter(s => s.id !== id)`. */
  function WithoutSpacecraft(ships: seq<Spacecraft>, id: string): (r: seq<Spacecraft>)
    ensures forall i | 0 <= i < |r| :: r[i] in ships && r[i].id != id
    ensures forall i | 0 <= i < |ships| && ships[i].id != id :: ships[i] in r
  {
    Filter(ships, (s: Spacecraft) => s.id != id)
  }

  /** Removing by id keeps every other record exactly as often as it occurred, in order,
      and leaves the list alone when no record has that id. */
  lemma WithoutSpacecraftKeepsOthers(ships: seq<Spacecraft>, id: string)
    ensures forall s: Spacecraft {:trigger multiset(ships)[s]} ::
      multiset(WithoutSpacecraft(ships, id))[s] == if s.id == id then 0 else multiset(ships)[s]
    ensures IsSubsequence(WithoutSpacecraft(ships, id), ships)
    ensures (forall i | 0 <= i < |ships| :: ships[i].id != id) ==> WithoutSpacecraft(ships, id) == ships
  {
    var p := (s: Spacecraft) => s.id != id;
    FilterIsSubsequence(ships, p);
    forall s: Spacecraft
      ensures multiset(WithoutSpacecraft(ships, id))[s] == if s.id == id then 0 else multiset(ships)[s]
    {
      FilterMultiplicity(ships, p, s);
    }
    if forall i | 0 <= i < |ships| :: ships[i].id != id {
      FilterKeepsAll(ships, p);
    }
  }

  /** The index `find` picks for a spacecraft id. */
  function FindSpacecraft(ships: seq<Spacecraft>, id: string): (r: Option<nat>)
    ensures r.None? <==> forall i | 0 <= i < |ships| :: ships[i].id != id
    ensures r.Some? ==> r.value < |ships| && ships[r.value].id == id
    ensures r.Some? ==> forall j | 0 <= j < r.value :: ships[j].id != id
  {
    FindIndex(ships, (s: Spacecraft) => s.id == id)
  }

  /** The index `find` picks for a planet id. */
  function FindPlanet(planets: seq<Planet>, id: int): (r: Option<nat>)
    ensures r.None? <==> forall i | 0 <= i < |planets| :: planets[i].id != id
    ensures r.Some? ==> r.value < |planets| && planets[r.value].id == id
    ensures r.Some? ==> forall j | 0 <= j < r.value :: planets[j].id != id
  {
    FindIndex(planets, (p: Planet) => p.id == id)
  }

  /** No two records of the table share an id. */
  predicate UniqueShipIds(ships: seq<Spacecraft>) {
    forall i, j | 0 <= i < j < |ships| :: ships[i].id != ships[j].id
  }

  predicate UniquePlanetIds(planets: seq<Planet>) {
    forall i, j | 0 <= i < j < |planets| :: planets[i].id != planets[j].id
  }

  /** The sum of all planet populations. */
  function TotalPopulation(planets: seq<Planet>): int {
    if planets == [] then 0 else planets[0].currentPopulation + TotalPopulation(planets[1..])
  }

  /** Replacing one planet changes the total by the difference of the two populations. */
  lemma {:induction false} TotalPopulationUpdate(planets: seq<Planet>, k: nat, p: Planet)
    requires k < |planets|
    ensures TotalPopulation(planets[k := p])
      == TotalPopulation(planets) - planets[k].currentPopulation + p.currentPopulation
  {
    if k > 0 {
      assert planets[k := p][1..] == planets[1..][k - 1 := p];
      TotalPopulationUpdate(planets[1..], k - 1, p);
    } else {
      assert planets[k := p][1..] == planets[1..];
    }
  }
}
