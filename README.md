# Space Travel fleet model

This project models the fleet and planet tables of the Space Travel application, and the
client handlers that read and change them, in Dafny. A planet has an id, a name, a population
and a picture. A spacecraft has an id, a name, a capacity, a description, a picture and the
id of the planet it is stationed on, or none. The handlers dispatch ships between planets,
moving people with them, build new ships and destroy old ones.

The repository holds two front ends, and both are modelled:

- **The single-file app** (`space-travel-app.tsx`):
  - `SpaceTravelMockApi`, the mock service that keeps both tables in local storage
    (module `MockApi`);
  - the construction page's form, validation and submit handler (module `ConstructionPage`);
  - the mission control panel: the spacecraft and target drop-downs, the targets offered
    and the send handler (module `MissionControl`).
- **The multi-page app**:
  - the planets page, with its per-spacecraft dispatch controller and the grouping of ships
    by planet (module `PlanetsPage`, `PlanetsPage.jsx`);
  - the fleet page, with its optimistic delete and the planet names on the cards
    (module `SpacecraftsPage`, `SpacecraftsPage.jsx`);
  - the new-spacecraft form (module `SpacecraftForm`, `SpacecraftForm.jsx`).

Shared modules:

- `Records` holds the two record types, the `{ isError, data }` reply and the table queries.
- `JsValues` holds the JavaScript coercions the handlers rely on:
  - `trim`;
  - `parseInt` without a radix;
  - the `Number` conversion of a string that a comparison such as `value < 1` applies;
  - the decimal rendering of `Date.now()` in new ids;
  - the rendering of a planet id as an option value (`value={p.id}`).
- `Seqs` holds `filter` and `find` over sequences.

How the model is built:

- An object whose state the source updates is a class. The mock service is one, and so is the
  state of each page and form. Their methods change only what their `modifies` clause allows,
  and their contracts state the whole new state.
- The handlers of the single-file app call the mock service class directly, and their
  contracts state the service's new tables.
- The handlers of the multi-page app call a service that is not modelled. How each call ended
  (`Call`: returned a reply, or threw) is a parameter:
  - `handleDispatch` and `handleDelete` are split in two, into the part before the call and
    the part after it, and a third method runs both halves in turn;
  - the three fetch handlers each run as one step, with the outcome of their request passed in;
  - the form's `handleSubmit` stops where it would call the context's `addSpacecraft`, and
    returns the record it would pass on.
- `window.confirm`'s answer and the clock reading behind a new id are parameters too.
- The mock service's dispatch is also stated as a function, `MockApi.Send`, on the two
  tables. The method is proved against it, and population conservation and non-negativity
  are proved about the function.

The pages of the single-file app reach the mock service through the forwarder
`SpaceTravelApi` (space-travel-app.tsx:104-132). It takes positional arguments, as in
`sendSpacecraftToPlanet(spacecraftId, targetPlanetId)`, and passes them on as the one object
the mock service destructures, `{ spacecraftId, targetPlanetId }`. The model leaves the
forwarder out and calls the mock service's methods with named arguments.

## Model

| member | source | states |
|---|---|---|
| JsValues.TrimStart | space-travel-app.tsx:706-708 | the result is a suffix of the input; everything dropped is white space; the result does not start with white space |
| JsValues.TrimEnd | space-travel-app.tsx:706-708 | the result is a prefix of the input; everything dropped is white space; the result does not end with white space |
| JsValues.BlankIffTrimmedEmpty | space-travel-app.tsx:706-708 | a field is blank (`!s.trim()`) exactly when trimming leaves nothing, both from the front alone and from both ends |
| JsValues.BlankParsesToNaN | space-travel-app.tsx:707-709 | `parseInt` of a blank string is NaN |
| JsValues.ParseInt | space-travel-app.tsx:53 | `parseInt` reads a number only when something is left after the leading white space; a negative result needs a leading minus sign; a text that starts with a decimal digit, and not with a `0x` or `0X` prefix, always reads as a non-negative number |
| JsValues.ParseIntNegated | space-travel-app.tsx:709 | `parseInt` reads a minus sign followed by the digits of `n` as the number `-n` |
| JsValues.NatToString | space-travel-app.tsx:51 | the decimal rendering of a clock reading is a non-empty run of digits without a leading zero |
| JsValues.ParseIntNatToString | space-travel-app.tsx:51 | `parseInt` reads back exactly the number the decimal rendering wrote |
| JsValues.NatToStringInjective | space-travel-app.tsx:51 | different clock readings are rendered differently |
| JsValues.IntToString | PlanetsPage.jsx:203 | the rendering of an integer is non-empty and starts with a minus sign exactly when the integer is negative |
| JsValues.ParseIntIntToString | PlanetsPage.jsx:195-203 | `parseInt` reads back exactly the integer its rendering wrote, negative or not |
| JsValues.ToNumber | SpacecraftForm.jsx:27 | `Number` of a blank text is zero |
| Records.ShipsAt | space-travel-app.tsx:850-852 | `getSpacecraftsOnPlanet`: every ship returned is in the table and on the planet, and every ship of the table on the planet is returned |
| Records.WithoutSpacecraft | space-travel-app.tsx:66 | every record kept is from the table and has another id; every record with another id is kept |
| Records.WithoutSpacecraftKeepsOthers | space-travel-app.tsx:63-69 | removing by id drops every record with the id and keeps every other one as often as it occurred and in order; the list is unchanged when no record has the id |
| Records.FindSpacecraft | space-travel-app.tsx:43 | `find` by id: no index exactly when no record has the id, otherwise the first record with it |
| Records.FindPlanet | space-travel-app.tsx:83-84 | `find` by planet id: no index exactly when no planet has the id, otherwise the first planet with it |
| Records.TotalPopulationUpdate | space-travel-app.tsx:88-89 | replacing one planet changes the population total by the difference of the two populations |
| MockApi.SeedTablesWellFormed | space-travel-app.tsx:10-27 | the seeded tables have unique ids, non-negative populations and capacities of at least one, and every seeded ship stands on a seeded planet |
| MockApi.TransferAmount | space-travel-app.tsx:86 | `Math.min(capacity, population)`: at most each argument and equal to one of them |
| MockApi.BuiltRecord | space-travel-app.tsx:50-57 | a built record always has a picture, and it is the given one when one is given |
| MockApi.Send | space-travel-app.tsx:71-96 | the dispatch fails exactly for an unknown ship or a target equal to its location, and then returns the matching message with the tables unchanged; otherwise the first ship with the id moves to the target, exactly `min(capacity, origin population)` people move from origin to target, and every other record is unchanged |
| MockApi.SendConservesPopulation | space-travel-app.tsx:86-89 | a dispatch leaves the total population of all planets unchanged |
| MockApi.SendKeepsPopulationsNonNegative | space-travel-app.tsx:86-88 | with no negative population and no negative capacity, no population becomes negative |
| MockApi.SpaceTravelMockApi.constructor | space-travel-app.tsx:6-27 | a table already stored is kept and a missing one is seeded |
| MockApi.SpaceTravelMockApi.GetPlanets | space-travel-app.tsx:30-33 | returns the stored planets as a success |
| MockApi.SpaceTravelMockApi.GetSpacecrafts | space-travel-app.tsx:35-38 | returns the stored spacecraft as a success |
| MockApi.SpaceTravelMockApi.GetSpacecraftById | space-travel-app.tsx:40-45 | an error with no data exactly when no record has the id, otherwise the first record with it |
| MockApi.SpaceTravelMockApi.BuildSpacecraft | space-travel-app.tsx:47-61 | appends exactly one record at the end, with id `sc-` plus the clock reading, the parsed capacity, the default picture for an empty one and location 1; the planets and the earlier records are unchanged |
| MockApi.SpaceTravelMockApi.DestroySpacecraftById | space-travel-app.tsx:63-69 | the new table is the old one without the records with the id, and the reply is a success whether or not one had it |
| MockApi.SpaceTravelMockApi.SendSpacecraftToPlanet | space-travel-app.tsx:71-96 | the reply and the new tables are exactly those of `Send` on the old tables |
| MockApi.BuiltIdReadsBack | space-travel-app.tsx:51 | a built id starts with `sc-`, and `parseInt` of the rest reads back exactly the clock reading it was built at |
| MockApi.BuiltIdsDiffer | space-travel-app.tsx:51 | records built at different clock readings get different ids |
| ConstructionPage.Set | space-travel-app.tsx:698 | the named field takes the new text and every other field keeps its text |
| ConstructionPage.ChecksInOrder | space-travel-app.tsx:705-711 | running the four checks in order reports the name and the description exactly when blank, the capacity when blank or not a number, with the number message winning, and never the picture |
| ConstructionPage.RequiredFieldsReported | space-travel-app.tsx:706-708 | the name and the description are reported exactly when blank; the picture is never reported |
| ConstructionPage.CapacityReported | space-travel-app.tsx:707-711 | the capacity is reported exactly when `parseInt` reads no number from it |
| ConstructionPage.BlankCapacityReported | space-travel-app.tsx:707-711 | a blank capacity is always reported: "required" when empty, "must be a number" when it holds only white space |
| ConstructionPage.ValidationPassesIff | space-travel-app.tsx:704-713 | validation reports nothing exactly when the name and the description are not blank and the capacity parses |
| ConstructionPage.PassedValidationParses | space-travel-app.tsx:717-724 | a form that passes validation has a capacity the service can parse |
| ConstructionPage.NegativeCapacityAccepted | space-travel-app.tsx:704-713 | a form with a name, a description and capacity `-n` passes validation, and the record built from it has capacity `-n < 0` |
| ConstructionPage.NegativeCapacityDispatch | space-travel-app.tsx:86-89 | dispatching a ship of negative capacity to an empty planet leaves that planet with a negative population |
| ConstructionPage.CorrectedValidation | space-travel-app.tsx:704-713 | the corrected validation reports at least every field the as-written one reports |
| ConstructionPage.CorrectedValidationPassesIff | space-travel-app.tsx:704-724 | the corrected validation passes exactly when the as-written one does and the capacity reads as at least 1, and every record it lets through has capacity at least 1 |
| ConstructionPage.Page.constructor | space-travel-app.tsx:687-694 | an empty form, no messages, not loading |
| ConstructionPage.Page.HandleInputChange | space-travel-app.tsx:696-702 | stores the text in the named field and empties that field's message when one is shown; nothing else changes |
| ConstructionPage.Page.ValidateForm | space-travel-app.tsx:704-713 | the errors object the method fills step by step is exactly the validation of the form |
| ConstructionPage.Page.HandleSubmit | space-travel-app.tsx:715-730 | builds exactly when validation reports nothing; otherwise shows the messages and leaves the service alone; a build appends exactly the record built from the form and leaves the planets unchanged |
| MissionControl.AvailableTargets | space-travel-app.tsx:876-879 | no targets without a chosen ship; otherwise exactly the planets other than the one the ship is on, each as often as in the table, in table order |
| MissionControl.OfferedTargetsAccepted | space-travel-app.tsx:876-879 | every offered target is one the service dispatches to successfully |
| MissionControl.Panel.constructor | space-travel-app.tsx:845-848 | nothing chosen, not sending, no message |
| MissionControl.Panel.SelectSpacecraft | space-travel-app.tsx:333-337 | a new ship choice clears the target and the message |
| MissionControl.Panel.SelectTarget | space-travel-app.tsx:355-358 | a new target choice clears the message and keeps the ship choice |
| MissionControl.Panel.HandleSendSpacecraft | space-travel-app.tsx:854-874 | with both choices the stored tables become those of `Send` for the parsed target; a failure shows its message and keeps the choices, a success clears both; sending is off afterwards |
| PlanetsPage.TargetOfOption | PlanetsPage.jsx:191-196 | the empty option stores no target; any other option stores `parseInt` of its value |
| PlanetsPage.OptionStoresPlanetId | PlanetsPage.jsx:195-203 | choosing the option rendered for any planet with `value={p.id}` stores exactly that planet's id, whatever its sign |
| PlanetsPage.OfferedDestinationPassesChecks | PlanetsPage.jsx:59-73 | every destination the drop-down offers, once chosen, passes both checks of the dispatch handler |
| PlanetsPage.TargetError | PlanetsPage.jsx:59-73 | no target gives the select-destination message, the current planet gives the same-planet message, and the dispatch may go ahead exactly otherwise |
| PlanetsPage.Relocate | PlanetsPage.jsx:85-99 | same length; every record with the id moves to the target; every other record is identical |
| PlanetsPage.RelocateMatchesSend | PlanetsPage.jsx:85-99 | with unique ship ids, the local update gives exactly the table the service stores after the same successful dispatch |
| PlanetsPage.Stationed | PlanetsPage.jsx:127-134 | one entry per planet, in order, each with the ships located on it |
| PlanetsPage.StationedListsExact | PlanetsPage.jsx:127-134 | each planet's list holds exactly the ships on that planet, each as often as in the table, in table order |
| PlanetsPage.StationedExactlyOnce | PlanetsPage.jsx:127-134 | with unique planet ids, a ship on an existing planet appears under that planet and no other |
| PlanetsPage.DestinationOptions | PlanetsPage.jsx:200-201 | the options are exactly the planets other than the ship's own, each as often as in the table, in table order |
| PlanetsPage.Page.constructor | PlanetsPage.jsx:12-18 | empty lists and maps, loading |
| PlanetsPage.Page.FetchData | PlanetsPage.jsx:24-45 | both lists are replaced and the messages cleared when both requests succeed; otherwise only the global message is set; loading ends |
| PlanetsPage.Page.SelectTarget | PlanetsPage.jsx:190-196 | only the ship's selection changes |
| PlanetsPage.Page.BeginDispatch | PlanetsPage.jsx:47-75 | the ship's message is cleared, a failed check sets its message and stops without marking the ship; otherwise the ship is marked as dispatching and the target returned |
| PlanetsPage.Page.FinishDispatch | PlanetsPage.jsx:77-124 | a successful dispatch moves the ship in the local list; a refresh that returns then supplies the planets when it succeeded and drops the ship's selection, and a refresh that throws sets the ship's error message instead; a failed or throwing dispatch changes only the ship's error message; the ship is no longer dispatching afterwards |
| PlanetsPage.Page.HandleDispatch | PlanetsPage.jsx:47-125 | the other ships' entries in the message, dispatching and selection maps are untouched, and loading is unchanged; a failed check sets the ship's message and changes nothing else; after a dispatch the ship is not dispatching; a failed or throwing call leaves both lists and the selection alone and sets the matching message; a successful call moves the ship, and then a refresh that returns supplies the planets when it succeeded, drops the selection and leaves the message empty, while a refresh that throws keeps planets and selection and sets the error message |
| SpacecraftsPage.PlanetNameById | SpacecraftsPage.jsx:80-83 | the name of the first planet with the id, or "Unknown" when there is none or no location |
| SpacecraftsPage.PlanetNameOfLocation | SpacecraftsPage.jsx:80-83 | with unique planet ids, a ship on planet `j` gets the name of planet `j` |
| SpacecraftsPage.CardData | SpacecraftsPage.jsx:95-98 | the card's location is the planet name of the ship's location |
| SpacecraftsPage.CardKeepsOtherFields | SpacecraftsPage.jsx:95-98 | a card keeps every other field: the ship comes back from it unchanged |
| SpacecraftsPage.Cards | SpacecraftsPage.jsx:92-101 | one card per ship, in order |
| SpacecraftsPage.Page.constructor | SpacecraftsPage.jsx:15-18 | empty lists, loading, no message |
| SpacecraftsPage.Page.FetchSpacecrafts | SpacecraftsPage.jsx:21-36 | clears the message, then takes the list on success or sets the failure or throw message; loading ends |
| SpacecraftsPage.Page.FetchPlanets | SpacecraftsPage.jsx:38-52 | takes the list on success or sets the failure or throw message; loading ends |
| SpacecraftsPage.Page.BeginDelete | SpacecraftsPage.jsx:58-63 | a declined confirmation changes nothing; otherwise the list is saved and the records with the id removed |
| SpacecraftsPage.Page.FinishDelete | SpacecraftsPage.jsx:65-73 | an error reply or a throw restores exactly the saved list; a success keeps the trimmed one |
| SpacecraftsPage.Page.HandleDelete | SpacecraftsPage.jsx:58-74 | the list loses the records with the id exactly when the deletion is confirmed and succeeds, and is otherwise unchanged |
| SpacecraftForm.Set | SpacecraftForm.jsx:29-32 | only the named field changes; the chosen icon is kept |
| SpacecraftForm.BelowOne | SpacecraftForm.jsx:27 | the guard's `value < 1` holds for every blank text, so a typed capacity cannot be cleared, and never for a text that is not a number |
| SpacecraftForm.AdmittedCapacityValidIffNumber | SpacecraftForm.jsx:44-47 | for a capacity the guard admits, the check holds exactly when the name, description and icon are non-empty and the capacity is a non-empty number |
| SpacecraftForm.ValidateForm | SpacecraftForm.jsx:44-47 | a form that passes the check has a capacity that is neither blank nor NaN |
| SpacecraftForm.Submission | SpacecraftForm.jsx:50-66 | a record exactly when the check holds, with the parsed capacity, the chosen icon as picture and no location |
| SpacecraftForm.NumberOfFiveInExponentForm | SpacecraftForm.jsx:46 | `Number("0.5e1")` is five, so the check finds it above zero |
| SpacecraftForm.ParseIntOfFiveInExponentForm | SpacecraftForm.jsx:62 | `parseInt("0.5e1")` is zero |
| SpacecraftForm.ZeroCapacitySubmitted | SpacecraftForm.jsx:44-66 | the form with capacity `0.5e1` is admitted by the guard and passes the check, yet the record gets capacity 0 |
| SpacecraftForm.CorrectedSubmission | SpacecraftForm.jsx:44-66 | the corrected submission yields a record exactly when the corrected check holds, and then the same record |
| SpacecraftForm.CorrectedCapacityAtLeastOne | SpacecraftForm.jsx:59-66 | every record the corrected submission builds has a capacity of at least one |
| SpacecraftForm.Form.constructor | SpacecraftForm.jsx:13-18 | empty fields, the first icon chosen, and a capacity the guard admits |
| SpacecraftForm.Form.HandleChange | SpacecraftForm.jsx:24-33 | a capacity below one is ignored and the form unchanged; any other change sets only the named field; the admitted-capacity invariant is kept |
| SpacecraftForm.Form.HandleImageClick | SpacecraftForm.jsx:36-41 | only the chosen icon changes |
| SpacecraftForm.Form.HandleSubmit | SpacecraftForm.jsx:50-66 | nothing reaches the context unless the check holds; otherwise exactly the submission record |

## Left out

- Rendering, routing and navigation: the JSX, styles, `onNavigate`, `navigate`, the
  spinners and the messages' placement. They have no state to model.
- The providers and contexts:
  - the `SpaceTravelProvider` of the single-file app and its `refreshData`;
  - `SpacecraftContext` and `PlanetContext` of the multi-page app.
  - They reload data from the service. The model's handlers stop where they would call
    `refreshData` or `addSpacecraft`, and the submit methods return what would be handed
    on.
- `services/SpaceTravelApi`, used by the multi-page app, is not part of this model. How each
  of its calls ends is a parameter.
- The forwarder `SpaceTravelApi` of the single-file app (space-travel-app.tsx:104-132). Each of
  its methods only wraps its arguments in the object the mock service reads, so the model
  calls the mock service directly.
- Local storage and JSON encoding. The two tables are fields of the service class.
  `null` locations are `None`.
- `delay()` and every other timing. The clock reading `Date.now()` is the parameter `now`.
- Concurrency. Each awaited call is the boundary between the two halves of its handler, and
  nothing else runs in between. Not modelled:
  - `Promise.all`;
  - racing dispatches;
  - the two fetches of the fleet page running at once, each ending the loading flag.
- `window.confirm` is a boolean parameter, and `alert` does nothing.
- Floating point:
  - `Number` is computed on exact reals, and `parseInt` on unbounded integers;
  - double rounding, `toLocaleString` and numbers beyond the double range are not modelled.
- The browser's handling of `type="number"` inputs, which may hand the handler a sanitised
  or empty text. The model passes any text.
- The delete handlers and the planet-name helpers of the single-file app's list page
  (space-travel-app.tsx:305-315) and detail page (space-travel-app.tsx:582-592).
  - Both `getPlanetName` helpers behave like `SpacecraftsPage.PlanetNameById`.
  - Both `handleDestroy` handlers call `destroySpacecraftById` of the forwarder, which passes
    `{ id }` on to `MockApi.SpaceTravelMockApi.DestroySpacecraftById`.
  - The list page's handler (space-travel-app.tsx:305-310) destroys the ship and then calls
    `refreshData`.
  - The detail page's handler (space-travel-app.tsx:582-587) destroys the page's own ship and
    navigates back without reloading, so the provider's list keeps the destroyed ship until
    something else reloads it.
- MockApi.SpaceTravelMockApi.BuildSpacecraft: requires a capacity that `parseInt` reads. The
  source would store NaN, which JSON turns into `null`. Its one modelled caller validates
  first, which `ConstructionPage.PassedValidationParses` proves.
- MockApi.SpaceTravelMockApi.SendSpacecraftToPlanet: requires both the origin and the target
  planet to exist whenever the dispatch gets past its two checks. The source dereferences
  `undefined` otherwise.
- MissionControl.Panel.HandleSendSpacecraft: requires, with both choices made, a target that
  parses and a dispatch that is defined in the same sense.
- The construction page's branch for a `buildSpacecraft` reply that reports an error. The mock
  service never reports one, so the model does not take that branch.

## Findings

| source | as written | input that shows it | evidently intended | confidence | as-written member | corrected member |
|---|---|---|---|---|---|---|
| space-travel-app.tsx:709 | validation only asks that `parseInt` reads some number from the capacity | name "Ark", capacity "-5", description "Colony ship": no message, and the built ship has capacity -5; dispatched to an empty planet it leaves a negative population there | a capacity must read as at least 1 | not executed | ConstructionPage.NegativeCapacityAccepted | ConstructionPage.CorrectedValidationPassesIff |
| SpacecraftForm.jsx:46 | the check reads the capacity with `Number` (`capacity > 0`) while the record reads it with `parseInt` | capacity "0.5e1": the guard and the check see 5, the record gets capacity 0 | read the capacity the same way and require at least 1 | not executed | SpacecraftForm.ZeroCapacitySubmitted | SpacecraftForm.CorrectedCapacityAtLeastOne |
