/** The planets page (PlanetsPage.jsx): the planet and spacecraft lists it fetches, the
    destination chosen for each spacecraft, the dispatch handler with its per-spacecraft
    error, in-flight and selection entries, and the grouping of spacecraft by planet. */
module PlanetsPage {
  import opened Seqs
  import opened Records
  import JsValues
  import MockApi

  const GlobalKey: string := "global"
  const FetchFailedMessage: string := "Failed to fetch data. Please try again later."
  const FetchThrewMessage: string := "An error occurred while fetching data."
  const NoDestinationMessage: string := "Please select a destination planet."
  const SamePlanetMessage: string := "Cannot dispatch to the same planet!"
  const DispatchFailedMessage: string := "Failed to dispatch spacecraft. Please try again."
  const DispatchThrewMessage: string := "Error while dispatching spacecraft."

  /** `selectedTargets[id]`: a missing entry reads as `undefined`, which the handler treats
      like `null` and NaN, so all three are `None`. */
  function SelectedTarget(selectedTargets: map<string, Option<int>>, id: string): Option<int> {
    if id in selectedTargets then selectedTargets[id] else None
  }

  /** The value the destination drop-down stores: `null` for the empty option, otherwise
      `parseInt` of the option value. */
  function TargetOfOption(value: string): (r: Option<int>)
    ensures value == "" ==> r == None
    ensures value != "" ==> r == JsValues.ParseInt(value)
  {
    if value == "" then None else JsValues.ParseInt(value)
  }

  /** The drop-down renders each destination `p` as an option with value `p.id`; choosing it
      stores that very id. */
  lemma OptionStoresPlanetId(id: int)
    ensures TargetOfOption(JsValues.IntToString(id)) == Some(id)
  {
    JsValues.ParseIntIntToString(id);
  }

  /** The message the two checks of `handleDispatch` report, or `None` when the dispatch may
      go ahead: a target is chosen and it is not the planet the ship stands on. */
  function TargetError(target: Option<int>, currentLocation: int): (r: Option<string>)
    ensures r.None? <==> target.Some? && target.value != currentLocation
    ensures target.None? ==> r == Some(NoDestinationMessage)
    ensures target.Some? && target.value == currentLocation ==> r == Some(SamePlanetMessage)
  {
    if target.None? then Some(NoDestinationMessage)
    else if target.value == currentLocation then Some(SamePlanetMessage)
    else None
  }

  /** The optimistic update after a successful dispatch: every record with the id is moved
      to the target, every other record is kept as it is. */
  function Relocate(ships: seq<Spacecraft>, id: string, target: int): (r: seq<Spacecraft>)
    ensures |r| == |ships|
    ensures forall i | 0 <= i < |ships| && ships[i].id == id ::
      r[i] == ships[i].(currentLocation := Some(target))
    ensures forall i | 0 <= i < |ships| && ships[i].id != id :: r[i] == ships[i]
  {
    if ships == [] then []
    else
      var first := if ships[0].id == id then ships[0].(currentLocation := Some(target)) else ships[0];
      [first] + Relocate(ships[1..], id, target)
  }

  /** When ship ids are unique, the optimistic update yields exactly the spacecraft table the
      mock API stores after the same successful dispatch. */
  lemma RelocateMatchesSend(t: MockApi.Tables, id: string, target: int)
    requires UniqueShipIds(t.spacecrafts)
    requires MockApi.SendDefined(t, id, target)
    requires !MockApi.Send(t, id, target).reply.isError
    ensures Relocate(t.spacecrafts, id, target) == MockApi.Send(t, id, target).tables.spacecrafts
  {
    var i := FindSpacecraft(t.spacecrafts, id).value;
    var sent := MockApi.Send(t, id, target).tables.spacecrafts;
    var moved := Relocate(t.spacecrafts, id, target);
    forall k | 0 <= k < |t.spacecrafts|
      ensures moved[k] == sent[k]
    {
      if k != i {
        assert t.spacecrafts[k].id != id by {
          if k < i {
            assert t.spacecrafts[k].id != t.spacecrafts[i].id;
          } else {
            assert t.spacecrafts[i].id != t.spacecrafts[k].id;
          }
        }
      }
    }
  }

  /** A planet together with the spacecraft stationed on it. */
  datatype StationedPlanet = StationedPlanet(planet: Planet, stationed: seq<Spacecraft>)

  /** `stationedSpacecrafts`: each planet with the ships whose location is its id. */
  function Stationed(planets: seq<Planet>, ships: seq<Spacecraft>): (r: seq<StationedPlanet>)
    ensures |r| == |planets|
    ensures forall j | 0 <= j < |planets| :: r[j].planet == planets[j]
    ensures forall j | 0 <= j < |planets| :: r[j].stationed == ShipsAt(ships, planets[j].id)
  {
    if planets == [] then []
    else [StationedPlanet(planets[0], ShipsAt(ships, planets[0].id))] + Stationed(planets[1..], ships)
  }

  /** Each planet's list holds exactly the ships located on that planet, each as often as in
      the table, in the table's order. */
  lemma StationedListsExact(planets: seq<Planet>, ships: seq<Spacecraft>, j: nat, s: Spacecraft)
    requires j < |planets|
    ensures var list := Stationed(planets, ships)[j].stationed;
      multiset(list)[s] == if s.currentLocation == Some(planets[j].id) then multiset(ships)[s] else 0
    ensures IsSubsequence(Stationed(planets, ships)[j].stationed, ships)
  {
    var p := (sc: Spacecraft) => sc.currentLocation == Some(planets[j].id);
    assert Stationed(planets, ships)[j].stationed == Filter(ships, p);
    FilterMultiplicity(ships, p, s);
    FilterIsSubsequence(ships, p);
  }

  /** When planet ids are unique, a ship located on a planet of the table is listed under
      that planet and under no other. */
  lemma StationedExactlyOnce(planets: seq<Planet>, ships: seq<Spacecraft>, k: nat)
    requires UniquePlanetIds(planets)
    requires k < |ships| && ships[k].currentLocation.Some?
    requires FindPlanet(planets, ships[k].currentLocation.value).Some?
    ensures forall j | 0 <= j < |planets| ::
      ships[k] in Stationed(planets, ships)[j].stationed
      <==> j == FindPlanet(planets, ships[k].currentLocation.value).value
  {
    var home := FindPlanet(planets, ships[k].currentLocation.value).value;
    var groups := Stationed(planets, ships);
    forall j | 0 <= j < |planets|
      ensures ships[k] in groups[j].stationed <==> j == home
    {
      if ships[k] in groups[j].stationed {
        var m :| 0 <= m < |groups[j].stationed| && groups[j].stationed[m] == ships[k];
        assert planets[j].id == planets[home].id;
      }
    }
  }

  /** The destinations offered for a ship on the given planet: all other planets, in order. */
  function DestinationOptions(planets: seq<Planet>, planetId: int): (r: seq<Planet>)
    ensures forall i | 0 <= i < |r| :: r[i] in planets && r[i].id != planetId
    ensures forall i | 0 <= i < |planets| && planets[i].id != planetId :: planets[i] in r
    ensures IsSubsequence(r, planets)
    ensures forall p: Planet {:trigger multiset(r)[p]} ::
      multiset(r)[p] == if p.id != planetId then multiset(planets)[p] else 0
  {
    var other := (p: Planet) => p.id != planetId;
    FilterIsSubsequence(planets, other);
    FilterCounts(planets, other);
    Filter(planets, other)
  }

  /** Choosing any offered destination stores a target that passes both checks of
      `handleDispatch` for a ship on that planet. */
  lemma OfferedDestinationPassesChecks(planets: seq<Planet>, planetId: int, j: nat)
    requires j < |DestinationOptions(planets, planetId)|
    ensures var chosen := DestinationOptions(planets, planetId)[j].id;
      TargetError(TargetOfOption(JsValues.IntToString(chosen)), planetId).None?
  {
    OptionStoresPlanetId(DestinationOptions(planets, planetId)[j].id);
  }

  /** The two maps agree on every key other than `k`. */
  ghost predicate OthersKept<V>(m: map<string, V>, previous: map<string, V>, k: string) {
    forall key | key != k :: (key in m <==> key in previous) && (key in m ==> m[key] == previous[key])
  }

  /** The page's state. `errors` is keyed by spacecraft id, and by `global` for a failed fetch. */
  class Page {
    var planets: seq<Planet>
    var spacecrafts: seq<Spacecraft>
    var selectedTargets: map<string, Option<int>>
    var dispatching: map<string, bool>
    var loading: bool
    var errors: map<string, string>

    constructor ()
      ensures planets == [] && spacecrafts == [] && selectedTargets == map[] && dispatching == map[]
      ensures loading && errors == map[]
    {
      planets := [];
      spacecrafts := [];
      selectedTargets := map[];
      dispatching := map[];
      loading := true;
      errors := map[];
    }

    /** `fetchData` with the outcomes of the two requests: both lists are replaced when both
        succeed; otherwise only the global message is set. */
    method FetchData(planetRes: Call<seq<Planet>>, spacecraftRes: Call<seq<Spacecraft>>)
      modifies this
      ensures !loading
      ensures selectedTargets == old(selectedTargets) && dispatching == old(dispatching)
      ensures planetRes.Threw? || spacecraftRes.Threw? ==>
        && errors == map[GlobalKey := FetchThrewMessage]
        && planets == old(planets) && spacecrafts == old(spacecrafts)
      ensures planetRes.Returned? && spacecraftRes.Returned? ==>
        if planetRes.Succeeded() && spacecraftRes.Succeeded() then
          && errors == map[]
          && planets == planetRes.response.data && spacecrafts == spacecraftRes.response.data
        else
          && errors == map[GlobalKey := FetchFailedMessage]
          && planets == old(planets) && spacecrafts == old(spacecrafts)
    {
      loading := true;
      errors := map[];
      if planetRes.Threw? || spacecraftRes.Threw? {
        errors := map[GlobalKey := FetchThrewMessage];
      } else if !planetRes.response.isError && !spacecraftRes.response.isError {
        planets := planetRes.response.data;
        spacecrafts := spacecraftRes.response.data;
      } else {
        errors := map[GlobalKey := FetchFailedMessage];
      }
      loading := false;
    }

    /** The destination drop-down of one ship. */
    method SelectTarget(shipId: string, value: string)
      modifies this
      ensures selectedTargets == old(selectedTargets)[shipId := TargetOfOption(value)]
      ensures planets == old(planets) && spacecrafts == old(spacecrafts)
      ensures dispatching == old(dispatching) && loading == old(loading) && errors == old(errors)
    {
      selectedTargets := selectedTargets[shipId := TargetOfOption(value)];
    }

    /** The part of `handleDispatch` before the call: the ship's message is cleared and then
        replaced by the message of a failed check; when both checks pass, the target is
        returned and the ship is marked as dispatching. */
    method BeginDispatch(shipId: string, currentLocation: int) returns (target: Option<int>)
      modifies this
      ensures var check := TargetError(SelectedTarget(old(selectedTargets), shipId), currentLocation);
        && (check.Some? ==>
              target.None? && errors == old(errors)[shipId := check.value] && dispatching == old(dispatching))
        && (check.None? ==>
              && target == SelectedTarget(old(selectedTargets), shipId)
              && errors == old(errors)[shipId := ""]
              && dispatching == old(dispatching)[shipId := true])
      ensures planets == old(planets) && spacecrafts == old(spacecrafts)
      ensures selectedTargets == old(selectedTargets) && loading == old(loading)
    {
      var targetPlanetId := SelectedTarget(selectedTargets, shipId);
      errors := errors[shipId := ""];
      if targetPlanetId.None? {
        errors := errors[shipId := NoDestinationMessage];
        return None;
      }
      if targetPlanetId.value == currentLocation {
        errors := errors[shipId := SamePlanetMessage];
        return None;
      }
      dispatching := dispatching[shipId := true];
      target := targetPlanetId;
    }

    /** The part of `handleDispatch` after the call, given how the dispatch and the planet
        refresh ended. A successful dispatch moves the ship in the local list, takes the
        refreshed planets when they come back without error and drops the ship's selection;
        if the refresh throws, the ship has moved but its message reports the error and its
        selection stays. A failed dispatch only sets the ship's message. The dispatching flag
        is cleared in every case. */
    method FinishDispatch(shipId: string, target: int, dispatchResult: Call<Option<string>>,
                          refresh: Call<seq<Planet>>)
      modifies this
      ensures dispatching == old(dispatching)[shipId := false]
      ensures loading == old(loading)
      ensures !dispatchResult.Succeeded() ==>
        && planets == old(planets) && spacecrafts == old(spacecrafts)
        && selectedTargets == old(selectedTargets)
        && errors == old(errors)[shipId := if dispatchResult.Threw? then DispatchThrewMessage
                                           else DispatchFailedMessage]
      ensures dispatchResult.Succeeded() ==> spacecrafts == Relocate(old(spacecrafts), shipId, target)
      ensures dispatchResult.Succeeded() && refresh.Threw? ==>
        && planets == old(planets) && selectedTargets == old(selectedTargets)
        && errors == old(errors)[shipId := DispatchThrewMessage]
      ensures dispatchResult.Succeeded() && refresh.Returned? ==>
        && planets == (if refresh.Succeeded() then refresh.response.data else old(planets))
        && selectedTargets == old(selectedTargets) - {shipId}
        && errors == old(errors)
    {
      if dispatchResult.Threw? {
        errors := errors[shipId := DispatchThrewMessage];
      } else if !dispatchResult.response.isError {
        spacecrafts := Relocate(spacecrafts, shipId, target);
        if refresh.Threw? {
          errors := errors[shipId := DispatchThrewMessage];
        } else {
          if !refresh.response.isError {
            planets := refresh.response.data;
          }
          selectedTargets := selectedTargets - {shipId};
        }
      } else {
        errors := errors[shipId := DispatchFailedMessage];
      }
      dispatching := dispatching[shipId := false];
    }

    /** `handleDispatch(spacecraftId, currentLocation)` as one step. Only the entries of the
        dispatched ship change in the three maps, and the ship is never left marked as
        dispatching when the call was made. */
    method HandleDispatch(shipId: string, currentLocation: int, dispatchResult: Call<Option<string>>,
                          refresh: Call<seq<Planet>>)
      modifies this
      ensures OthersKept(errors, old(errors), shipId)
      ensures OthersKept(dispatching, old(dispatching), shipId)
      ensures OthersKept(selectedTargets, old(selectedTargets), shipId)
      ensures loading == old(loading)
      ensures TargetError(SelectedTarget(old(selectedTargets), shipId), currentLocation).Some? ==>
        && shipId in errors
        && errors[shipId] == TargetError(SelectedTarget(old(selectedTargets), shipId), currentLocation).value
        && planets == old(planets) && spacecrafts == old(spacecrafts)
        && selectedTargets == old(selectedTargets) && dispatching == old(dispatching)
      ensures TargetError(SelectedTarget(old(selectedTargets), shipId), currentLocation).None? ==>
        && shipId in dispatching && !dispatching[shipId]
        && (dispatchResult.Succeeded() ==>
              spacecrafts == Relocate(old(spacecrafts), shipId,
                                      SelectedTarget(old(selectedTargets), shipId).value))
        && (dispatchResult.Succeeded() && refresh.Returned? ==>
              && shipId !in selectedTargets && shipId in errors && errors[shipId] == ""
              && planets == (if refresh.Succeeded() then refresh.response.data else old(planets)))
        && (dispatchResult.Succeeded() && refresh.Threw? ==>
              && planets == old(planets) && selectedTargets == old(selectedTargets)
              && shipId in errors && errors[shipId] == DispatchThrewMessage)
        && (!dispatchResult.Succeeded() ==>
              && spacecrafts == old(spacecrafts) && planets == old(planets)
              && selectedTargets == old(selectedTargets)
              && shipId in errors
              && errors[shipId] == if dispatchResult.Threw? then DispatchThrewMessage else DispatchFailedMessage)
    {
      var target := BeginDispatch(shipId, currentLocation);
      if target.Some? {
        FinishDispatch(shipId, target.value, dispatchResult, refresh);
      }
    }
  }
}
