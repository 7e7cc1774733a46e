/** The mission control panel of the single-file app (space-travel-app.tsx, `PlanetsPage`):
    one spacecraft and one target planet chosen from two drop-downs, the targets offered for
    the chosen spacecraft, and the send handler that calls the mock API's dispatch. */
module MissionControl {
  import opened Seqs
  import opened Records
  import JsValues
  import MockApi

  const SelectBothMessage: string := "Please select both spacecraft and target planet"

  /** `availableTargets`: every planet except the one the chosen spacecraft is on, in table
      order; no planet at all when no spacecraft has the chosen id. */
  function AvailableTargets(planets: seq<Planet>, ships: seq<Spacecraft>, selected: string): (r: seq<Planet>)
    ensures FindSpacecraft(ships, selected).None? ==> r == []
    ensures FindSpacecraft(ships, selected).Some? ==>
      var location := ships[FindSpacecraft(ships, selected).value].currentLocation;
      && (forall i | 0 <= i < |r| :: r[i] in planets && Some(r[i].id) != location)
      && (forall i | 0 <= i < |planets| && Some(planets[i].id) != location :: planets[i] in r)
    ensures FindSpacecraft(ships, selected).Some? ==>
      var location := ships[FindSpacecraft(ships, selected).value].currentLocation;
      forall p: Planet {:trigger multiset(r)[p]} ::
        multiset(r)[p] == if Some(p.id) != location then multiset(planets)[p] else 0
    ensures IsSubsequence(r, planets)
  {
    match FindSpacecraft(ships, selected)
    case None => []
    case Some(k) =>
      var elsewhere := (p: Planet) => Some(p.id) != ships[k].currentLocation;
      FilterIsSubsequence(planets, elsewhere);
      FilterCounts(planets, elsewhere);
      Filter(planets, elsewhere)
  }

  /** Every target the panel offers is one the mock API accepts: the dispatch is defined and
      succeeds, as long as the chosen ship stands on a planet of the table. */
  lemma OfferedTargetsAccepted(t: MockApi.Tables, selected: string, j: nat)
    requires FindSpacecraft(t.spacecrafts, selected).Some?
    requires var location := t.spacecrafts[FindSpacecraft(t.spacecrafts, selected).value].currentLocation;
      location.Some? && FindPlanet(t.planets, location.value).Some?
    requires j < |AvailableTargets(t.planets, t.spacecrafts, selected)|
    ensures MockApi.SendDefined(t, selected, AvailableTargets(t.planets, t.spacecrafts, selected)[j].id)
    ensures !MockApi.Send(t, selected, AvailableTargets(t.planets, t.spacecrafts, selected)[j].id).reply.isError
  {
    var targets := AvailableTargets(t.planets, t.spacecrafts, selected);
    var p := targets[j];
    assert p in t.planets;
    var i :| 0 <= i < |t.planets| && t.planets[i] == p;
    assert FindPlanet(t.planets, p.id).Some?;
  }

  /** The panel's state: the two selections, the sending flag and the message shown. */
  class Panel {
    var selectedSpacecraft: string
    var targetPlanet: string
    var sending: bool
    var error: string

    constructor ()
      ensures selectedSpacecraft == "" && targetPlanet == "" && !sending && error == ""
    {
      selectedSpacecraft := "";
      targetPlanet := "";
      sending := false;
      error := "";
    }

    /** The spacecraft drop-down: a new choice clears the target and the message. */
    method SelectSpacecraft(value: string)
      modifies this
      ensures selectedSpacecraft == value && targetPlanet == "" && error == ""
      ensures sending == old(sending)
    {
      selectedSpacecraft := value;
      targetPlanet := "";
      error := "";
    }

    /** The target drop-down: a new choice clears the message. */
    method SelectTarget(value: string)
      modifies this
      ensures targetPlanet == value && error == ""
      ensures selectedSpacecraft == old(selectedSpacecraft) && sending == old(sending)
    {
      targetPlanet := value;
      error := "";
    }

    /** `handleSendSpacecraft`: with both choices made, the chosen ship is dispatched to the
        parsed target. The context's service forwards the two arguments to the mock API as the
        object `{ spacecraftId, targetPlanetId }` it reads, so the model calls the mock API
        directly. An error reply's message is shown, and a success clears both choices. */
    method HandleSendSpacecraft(api: MockApi.SpaceTravelMockApi)
      requires selectedSpacecraft != "" && targetPlanet != "" ==>
        && JsValues.ParseInt(targetPlanet).Some?
        && MockApi.SendDefined(api.Stored(), selectedSpacecraft, JsValues.ParseInt(targetPlanet).value)
      modifies this, api
      ensures old(selectedSpacecraft) == "" || old(targetPlanet) == "" ==>
        && error == SelectBothMessage && sending == old(sending)
        && selectedSpacecraft == old(selectedSpacecraft) && targetPlanet == old(targetPlanet)
        && api.Stored() == old(api.Stored())
      ensures old(selectedSpacecraft) != "" && old(targetPlanet) != "" ==>
        var d := MockApi.Send(old(api.Stored()), old(selectedSpacecraft),
                              JsValues.ParseInt(old(targetPlanet)).value);
        && api.Stored() == d.tables
        && !sending
        && (d.reply.isError ==>
              error == d.reply.data.value
              && selectedSpacecraft == old(selectedSpacecraft) && targetPlanet == old(targetPlanet))
        && (!d.reply.isError ==> error == "" && selectedSpacecraft == "" && targetPlanet == "")
    {
      if selectedSpacecraft == "" || targetPlanet == "" {
        error := SelectBothMessage;
        return;
      }
      sending := true;
      error := "";
      var response := api.SendSpacecraftToPlanet(selectedSpacecraft, JsValues.ParseInt(targetPlanet).value);
      if response.isError {
        error := response.data.value;
      } else {
        selectedSpacecraft := "";
        targetPlanet := "";
      }
      sending := false;
    }
  }
}
