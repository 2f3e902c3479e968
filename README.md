# SmartTransportation, modelled in Dafny

SmartTransportation is a Cities: Skylines II mod. It adjusts the ticket price and the vehicle count of every public-transport line a few times per in-game day.

Each line is steered towards a target occupancy, either from the settings of its transport type or from a custom rule bound to the line. The adjustment is one step at a time and stays inside vehicle bounds. When a stop gets crowded the mod posts a chirp, and a per-stop latch keeps the same stop from being announced again until it has cooled down.

Around that controller sit three further pieces:
- **The rule registry** (ManageRouteSystem) stores the custom rules and the line-to-rule bindings.
- **A static bridge** is what the UI systems call to reach the registry.
- **Three UI systems** show the rules and the routes as JSON and receive the add, delete and assign requests from the panels.

The project models all of these. Each is modelled in the source's own form:
- Objects whose methods update their fields are classes: the settings object, the registry, the UI systems, the UI records with their JSON writer, and the controller with its latch.
- Loops are methods proved against specification functions.
- Value code is functions with lemmas.

| file | module | models |
|---|---|---|
| wrappers.dfy | Wrappers | `Option` / `Result` |
| ids.dfy | Ids | `Entity`, `Hash128` and its text form |
| text.dfy | Text | the .NET string predicates, UTF-8 length and integer printing |
| transport.dfy | Transport | the game's `TransportType` |
| setting.dfy | Settings | `Setting` (defaults, constructor guard, reset button, update frequency) |
| components.dfy | Components | the `CustomRule` and `RouteRule` components and their serialization |
| manage_route.dfy | ManageRoute | `ManageRouteSystem`, the rule registry |
| bridge.dfy | Bridge | `ManageRouteBridge` |
| domain.dfy | Domain | the UI records (`CustomRule`, `CustomRules`, `RouteInfo`, `RouteInfos`, `DisabledTransportTypes`) and the JSON writer they call |
| json_text.dfy | JsonText | string escaping and the reading side of RFC 8259, used to state what the hand-built JSON means |
| smart_transportation_ui.dfy | SmartTransportationUI | `SmartTransportationUISystem` |
| custom_rules_ui.dfy | CustomRulesUI | `CustomRulesUISystem` |
| all_routes_ui.dfy | AllRoutesUI | `AllRoutesUISystem` |
| transit_control.dfy | TransitControl | the arithmetic of the controller: telemetry, capacity, rule terms, price and vehicle decision |
| smart_transit.dfy | SmartTransit | `SmartTransitSystem`: the per-line pass, the busy-stop latch and the alert budget |

## Model

| member | source | states |
|---|---|---|
| Ids.ParseToText | TransitManager/Systems/CustomRulesUISystem.cs:79 | the text form of every rule id parses back to that id |
| Ids.Parse | TransitManager/Bridge/ManageRouteBridge.cs:166-177 | parsing succeeds exactly on a text of 32 hexadecimal digits |
| Ids.ToTextInjective | TransitManager/Systems/CustomRulesUISystem.cs:110 | two different ids never print alike, so looking a rule up by its id text finds only that rule |
| Text.Utf8Length | TransitManager/Components/CustomRule.cs:56 | the UTF-8 byte count of a name lies between its length and four times its length |
| Settings.UpdateFreq.Value | TransitManager/Setting.cs:365-370 | the three update frequencies are 32, 64 and 16 updates a day |
| Settings.Defaults | TransitManager/Setting.cs:40-108 | the default bus target occupancy is not 0, so a reset is not applied again at the next load |
| Settings.DefaultsInSliderRanges | TransitManager/Setting.cs:40-108 | every default lies inside the range its slider declares |
| Settings.DefaultHysteresisBand | TransitManager/Setting.cs:105-106 | the default exit level (55) lies below the default enter level (70) |
| Settings.Setting.constructor | TransitManager/Setting.cs:35-38 | defaults are applied exactly when the bus target occupancy is still 0; otherwise the stored values are kept (that property has no initializer at Setting.cs:116, so in the program it reads 0 here and the second branch is never taken) |
| Settings.Setting.SetDefaults | TransitManager/Setting.cs:40-108 | every setting, the disable toggles included, ends at its default, whatever it was before |
| Settings.Setting.SetButton | TransitManager/Setting.cs:374-382 | writing the reset button, with any value, restores the defaults |
| Components.ToFixedString64 | TransitManager/Components/CustomRule.cs:55-56 | a name fits the 64-byte fixed string exactly when its UTF-8 form has at most 61 bytes, and is then kept unchanged |
| Components.NewCustomRule | TransitManager/Components/CustomRule.cs:26-36 | a new rule has version 1, the fresh id and exactly the seven given values |
| Components.NewRouteRule | TransitManager/Components/RouteRule.cs:16-19 | a new binding has version 1 and the given key |
| Components.SerializeCustomRule | TransitManager/Components/CustomRule.cs:38-49 | writes version, id, name and the six numbers, in that order, after what was written before |
| Components.DeserializeCustomRule | TransitManager/Components/CustomRule.cs:51-63 | reads the nine values in the same order; a missing value or an over-long name fails |
| Components.CustomRuleRoundTrip | TransitManager/Components/CustomRule.cs:38-63 | a serialized rule reads back as the same rule wherever it sits in the stream |
| Components.OversizedNameRefused | TransitManager/Components/CustomRule.cs:56 | a stored name longer than 61 UTF-8 bytes makes the read fail |
| Components.DecodeCustomRule | TransitManager/Components/CustomRule.cs:51-63 | a record reads successfully only where the next nine values are exactly the layout of the rule read |
| Components.SerializeRouteRule | TransitManager/Components/RouteRule.cs:23-27 | writes version then key |
| Components.DeserializeRouteRule | TransitManager/Components/RouteRule.cs:29-33 | reads version then key |
| Components.DecodeRouteRule | TransitManager/Components/RouteRule.cs:29-33 | a binding reads successfully only where the next two values are exactly its layout |
| Components.RouteRuleRoundTrip | TransitManager/Components/RouteRule.cs:23-33 | a serialized binding reads back as the same binding |
| ManageRoute.RuleNameEntries | TransitManager/Systems/ManageRouteSystem.cs:29-42 | the name table has ten entries whose keys strictly ascend, so no key names two rules |
| ManageRoute.RuleName | TransitManager/Systems/ManageRouteSystem.cs:29-42 | a key has a name exactly when it is an entry of the table |
| ManageRoute.FindRule | TransitManager/Systems/ManageRouteSystem.cs:191-200 | the index of the first rule with the id, or -1 exactly when no rule has it |
| ManageRoute.UpdateThenLookup | TransitManager/Systems/ManageRouteSystem.cs:206-236 | after a set, the id reads back the new values (default when absent), every other id reads as before and the ids are unchanged |
| ManageRoute.AddThenLookup | TransitManager/Systems/ManageRouteSystem.cs:239-243 | an added rule with a fresh id is readable by that id, every other id reads as before and the ids stay unique |
| ManageRoute.RemoveProperties | TransitManager/Systems/ManageRouteSystem.cs:246-261 | a remove deletes at most the first match, keeps the rest in store order (see Left out for the engine's order), and under unique ids leaves nothing under that id and every other id as before |
| ManageRoute.OperationsKeepUniqueIds | TransitManager/Systems/ManageRouteSystem.cs:206-261 | set, remove and an add with a fresh id keep the ids unique |
| ManageRoute.ManageRouteSystem.constructor | TransitManager/Systems/ManageRouteSystem.cs:24-27 | the registry works over the rules, bindings and routes the game world holds, with no forwarded calls yet; rules with unique ids make it valid |
| ManageRoute.ManageRouteSystem.SetRouteRule | TransitManager/Systems/ManageRouteSystem.cs:88-101 | the route's binding becomes the given key, whether it was bound before or not; nothing else changes |
| ManageRoute.ManageRouteSystem.GetRouteRule | TransitManager/Systems/ManageRouteSystem.cs:103-145 | a bound route gives its key and the key's name (or the default pair); an unbound route gives its type's entry, or Disabled when its type is disabled or it has no prefab; a prefab without line data is an error |
| ManageRoute.ManageRouteSystem.GetRouteRules | TransitManager/Systems/ManageRouteSystem.cs:149-187 | nothing for a route without a prefab or line data; only Disabled for a type the selector treats as disabled; otherwise exactly the table entries offered to the route's type, ascending by key |
| ManageRoute.ManageRouteSystem.GetCustomRule | TransitManager/Systems/ManageRouteSystem.cs:189-203 | the values of the first stored rule with that id, or the default when there is none |
| ManageRoute.ManageRouteSystem.SetCustomRule | TransitManager/Systems/ManageRouteSystem.cs:206-236 | only the first rule with that id takes the new values; a missing id changes nothing; ids stay unique |
| ManageRoute.ManageRouteSystem.AddCustomRule | TransitManager/Systems/ManageRouteSystem.cs:239-243 | exactly one rule is appended, holding the given values and the fresh id; ids stay unique |
| ManageRoute.ManageRouteSystem.RemoveCustomRule | TransitManager/Systems/ManageRouteSystem.cs:246-261 | the first rule with that id is removed and the bindings are kept; ids stay unique |
| ManageRoute.ManageRouteSystem.GetCustomRules | TransitManager/Systems/ManageRouteSystem.cs:264-272 | one row per stored rule, in store order, with its id and values |
| Bridge.RuleIdFromText | TransitManager/Bridge/ManageRouteBridge.cs:163-178 | no id for a null or empty text or one that does not parse; otherwise the parsed id |
| Bridge.RuleIdFromTextOfId | TransitManager/Bridge/ManageRouteBridge.cs:166-177 | an id's text form forwards that id; a text of the wrong length or with a non-hex character forwards none |
| Bridge.SetRouteRuleForRoute | TransitManager/Bridge/ManageRouteBridge.cs:159-181 | nothing without a registry; otherwise exactly one forwarded call, carrying the parsed id or none |
| Bridge.GetRoutesForUI | TransitManager/Bridge/ManageRouteBridge.cs:143-157 | a new array equal, entry by entry, to the registry's routes; empty for none |
| Bridge.AddCustomRule | TransitManager/Bridge/ManageRouteBridge.cs:97-100 | one blank rule is added and its id is returned; ids stay unique |
| Bridge.SetCustomRule | TransitManager/Bridge/ManageRouteBridge.cs:78-90 | a name that fits is stored with the values; a name that does not fit changes nothing; ids stay unique |
| Domain.ObjectShape | TransitManager/Domain/CustomRule.cs:28-48 | an object written from scalar pairs opens once, closes once and holds one property name per pair |
| Domain.ArrayObjects | TransitManager/Domain/CustomRules.cs:8-16 | an array of single objects holds exactly one object per element |
| Domain.CustomRule.Write | TransitManager/Domain/CustomRule.cs:28-48 | writes the rule's eight properties as one object, after what was written before |
| Domain.CustomRuleTokensShape | TransitManager/Domain/CustomRule.cs:28-48 | 18 tokens, the id as its text form and each value under its own name |
| Domain.CustomRules.Write | TransitManager/Domain/CustomRules.cs:8-16 | writes an array of the rules, each once, in list order |
| Domain.CustomRulesWriteShape | TransitManager/Domain/CustomRules.cs:8-16 | the array carries the rule count and exactly one object per rule |
| Domain.RouteInfo.Write | TransitManager/Domain/RouteInfo.cs:25-39 | writes the route's five properties as one object |
| Domain.RouteInfoTokensShape | TransitManager/Domain/RouteInfo.cs:25-39 | 12 tokens, each value under its own name, the rule id as its text form |
| Domain.RouteInfos.Write | TransitManager/Domain/RouteInfos.cs:8-16 | writes an array of the routes, each once, in list order |
| Domain.RouteInfosWriteShape | TransitManager/Domain/RouteInfos.cs:8-16 | the array carries the route count and exactly one object per route |
| Domain.DisabledTransportTypes.FromSettings | TransitManager/Domain/DisabledTransportTypes.cs:35-47 | a new object whose seven flags equal the seven disable toggles |
| Domain.DisabledTransportTypes.Write | TransitManager/Domain/DisabledTransportTypes.cs:15-33 | writes the seven flags as one object, Bus to Ferry |
| Domain.DisabledTypesTokensShape | TransitManager/Domain/DisabledTransportTypes.cs:15-33 | exactly seven properties, each flag under its type's name |
| JsonText.ReadEscaped | TransitManager/Systems/SmartTransportationUISystem.cs:283-317 | escaped text followed by a quote reads back as the original string and stops at that quote |
| JsonText.EscapedHasNoControl | TransitManager/Systems/SmartTransportationUISystem.cs:283-317 | the escaped form holds no raw control character |
| JsonText.EscapedIdentity | TransitManager/Systems/SmartTransportationUISystem.cs:283-317 | a string with nothing to escape is written unchanged |
| JsonText.ReadIntToString | TransitManager/Systems/SmartTransportationUISystem.cs:180 | a printed route number reads back as that number |
| SmartTransportationUI.JsonEscape | TransitManager/Systems/SmartTransportationUISystem.cs:283-317 | "" for a null or empty value, otherwise the character-by-character escape |
| SmartTransportationUI.AppendRouteObject | TransitManager/Systems/SmartTransportationUISystem.cs:176-196 | the loop body appends exactly the text of one route object |
| SmartTransportationUI.GetRoutesJson | TransitManager/Systems/SmartTransportationUISystem.cs:157-208 | "[]" for no routes; otherwise the routes' objects, in order, between brackets |
| SmartTransportationUI.RoutesJsonRoundTrip | TransitManager/Systems/SmartTransportationUISystem.cs:157-208 | the routes text reads back as JSON to the routes in order, every field kept (null as ""); it is "[]" exactly when there are no routes |
| SmartTransportationUI.GetCustomRulesJson | TransitManager/Systems/SmartTransportationUISystem.cs:118-148 | an empty array exactly for a null or empty list, otherwise one record per rule |
| SmartTransportationUI.CustomRulesJsonFaithful | TransitManager/Systems/SmartTransportationUISystem.cs:118-148 | each record's id text parses back to its rule's id and it carries that rule's values |
| SmartTransportationUI.AddThenSet | TransitManager/Systems/SmartTransportationUISystem.cs:223-263 | add-then-set leaves one more rule with the values set; other ids read as before and ids stay unique |
| SmartTransportationUI.SelectionRuleId | TransitManager/Systems/SmartTransportationUISystem.cs:75-109 | a selection forwards no id for a null or empty id text and the id itself for its text form |
| SmartTransportationUI.SmartTransportationUISystem.AddCustomRuleFromUI | TransitManager/Systems/SmartTransportationUISystem.cs:223-263 | nothing for a blank or unreadable payload; otherwise a blank rule is added and set to the payload's values; an over-long name leaves the blank rule and skips the refreshes |
| SmartTransportationUI.SmartTransportationUISystem.SetRouteRuleForRouteFromUI | TransitManager/Systems/SmartTransportationUISystem.cs:75-109 | nothing for a blank or unreadable payload; otherwise one forwarded call with null strings as "", and a refresh of the routes |
| CustomRulesUI.VisibleRowsMembers | TransitManager/Systems/CustomRulesUISystem.cs:39-69 | a rule is listed exactly when it is stored and its name is not a disabled type's (Ferry never hides) |
| CustomRulesUI.NothingDisabledShowsAll | TransitManager/Systems/CustomRulesUISystem.cs:39-69 | with no type disabled every stored rule is listed, in order |
| CustomRulesUI.FindListed | TransitManager/Systems/CustomRulesUISystem.cs:79 | the first listed rule whose id prints as the text, or -1 exactly when there is none |
| CustomRulesUI.ListedTextParses | TransitManager/Systems/CustomRulesUISystem.cs:79-100 | a text that names a listed rule parses to that rule's id |
| CustomRulesUI.HiddenIsBuiltIn | TransitManager/Systems/CustomRulesUISystem.cs:52-61 | every name the list can hide is a built-in name that cannot be deleted |
| CustomRulesUI.CustomRulesUISystem.GetCustomRulesJson | TransitManager/Systems/CustomRulesUISystem.cs:39-69 | the list shows exactly the visible registry rules, in order and field for field, and is written as one array; without a registry the list is left empty and nothing is written |
| CustomRulesUI.CustomRulesUISystem.DeleteCustomRule | TransitManager/Systems/CustomRulesUISystem.cs:70-115 | a blank id, an unlisted id or a built-in rule changes nothing; otherwise that rule leaves the registry and the list; bindings are kept; without a registry the caught exception leaves the list as it was |
| CustomRulesUI.DeleteRemovesOnlyThatRule | TransitManager/Systems/CustomRulesUISystem.cs:70-115 | after a delete the id is gone and every other rule reads as before |
| AllRoutesUI.WrittenRuleIdRoundTrip | TransitManager/Domain/RouteInfo.cs:25-39 | the id text the routes panel receives is one the bridge turns back into that route's rule id |
| AllRoutesUI.AllRoutesUISystem.WriteRouteInfos | TransitManager/Systems/AllRoutesUISystem.cs:48-66 | one entry per route the bridge returns, in order, null strings as ""; an empty list without routes; written as one array; without a registry the list is left empty and nothing is written |
| AllRoutesUI.AllRoutesUISystem.WriteDisabledTransportTypes | TransitManager/Systems/AllRoutesUISystem.cs:68-72 | the flags sent equal the seven disable toggles |
| AllRoutesUI.AllRoutesUISystem.SetRouteRuleForRouteFromUI | TransitManager/Systems/AllRoutesUISystem.cs:74-108 | a blank type, a non-positive number or a blank id changes nothing; otherwise exactly one forwarded call with the parsed id and one refresh |
| AllRoutesUI.AcceptedForwardsParsedId | TransitManager/Systems/AllRoutesUISystem.cs:74-108 | an accepted request forwards exactly the parse of the id text |
| TransitControl.RoundHalfEven | TransitManager/Systems/SmartTransitSystem.cs:392 | the nearest integer, within one half of the value, and even when the value is halfway |
| TransitControl.CountPassengers | TransitManager/Systems/SmartTransitSystem.cs:293-304 | the passengers on board and the empty vehicles, over the vehicles with a readable buffer |
| TransitControl.EmptyVehiclesBound | TransitManager/Systems/SmartTransitSystem.cs:293-304 | no more empty vehicles than vehicles, and nobody on board when every vehicle is empty |
| TransitControl.Busiest | TransitManager/Systems/SmartTransitSystem.cs:330-351 | the largest queue is never negative |
| TransitControl.ScanWaypoints | TransitManager/Systems/SmartTransitSystem.cs:326-351 | the waiting passengers over all stops, and the largest connected queue with its stop |
| TransitControl.BusiestIsFirstMax | TransitManager/Systems/SmartTransitSystem.cs:330-351 | the busiest stop is the first connected stop with the largest queue; Null when no queue is positive |
| TransitControl.FirstNonNull | TransitManager/Systems/SmartTransitSystem.cs:271-284 | a non-Null result is one of the models, and the result is Null exactly when every model is Null |
| TransitControl.ComputeCapacity | TransitManager/Systems/SmartTransitSystem.cs:306-324 | the prefab's seats plus its carriages', times the engine count when that is positive |
| TransitControl.CarriageSeatsAppend | TransitManager/Systems/SmartTransitSystem.cs:310-318 | carriage seats add up over any split of the carriage list |
| TransitControl.MoreCarriagesMoreCapacity | TransitManager/Systems/SmartTransitSystem.cs:310-318 | one more carriage entry with seats strictly raises the capacity of a train with engines |
| TransitControl.PickPrimary | TransitManager/Systems/SmartTransitSystem.cs:271-284 | the first non-Null primary prefab, or Null exactly when every model's prefab is Null |
| TransitControl.LegacyId | TransitManager/Systems/SmartTransitSystem.cs:391 | a key in the 32-bit range looks up the rule whose id has that value |
| TransitControl.RouteTerms | TransitManager/Systems/SmartTransitSystem.cs:385-451 | terms exist exactly when the line has a rule or its type has defaults |
| TransitControl.CustomRuleIgnoresMaxVehAdj | TransitManager/Systems/SmartTransitSystem.cs:385-395 | under a custom rule the upper vehicle bound is the game's own, and the rule's maximum adjustment has no effect |
| TransitControl.DefaultTermsScaleBoth | TransitManager/Systems/SmartTransitSystem.cs:397-451 | without a rule both vehicle bounds are scaled by the type's adjustments, and a zero adjustment keeps a bound |
| TransitControl.Divide | TransitManager/Systems/SmartTransitSystem.cs:563 | float division: the quotient for a nonzero divisor; for a zero divisor an infinity of the dividend's sign, or NaN for 0/0 |
| TransitControl.LoadRatio | TransitManager/Systems/SmartTransitSystem.cs:370 | passengers plus weighted waiting over the seats of all vehicles, a plain number whenever the seats are not zero |
| TransitControl.CompareLoad | TransitManager/Systems/SmartTransitSystem.cs:370 | a NaN load is neither below nor above any bound, and no load is both |
| TransitControl.AtLeastOne | TransitManager/Systems/SmartTransitSystem.cs:455-458 | the lower vehicle bound is raised to at least 1 and never lowered |
| TransitControl.Decide | TransitManager/Systems/SmartTransitSystem.cs:453-571 | the price is one below, at or one above the standard ticket by band (0 for a free standard ticket); the count steps by band, is clamped to the bounds, and is held when over 30% of vehicles are empty |
| TransitControl.PriceWithinOneStep | TransitManager/Systems/SmartTransitSystem.cs:517-551 | the price stays within one of the standard ticket, never falls when the load rises, and a NaN load keeps the standard ticket |
| TransitControl.VehicleBounds | TransitManager/Systems/SmartTransitSystem.cs:553-566 | braking keeps the count; otherwise at least the lower bound (never below 1), at most the upper bound when the bounds are consistent, and a single step inside them |
| SmartTransit.SkippedLinesUntouched | TransitManager/Systems/SmartTransitSystem.cs:219-265 | a line bound to the Disabled key or of a disabled type gets no policy write |
| SmartTransit.WritesCome | TransitManager/Systems/SmartTransitSystem.cs:573-578 | every write of a pass belongs to one of its lines, and the ticket policy is enabled exactly when the price is positive |
| SmartTransit.LatchArms | TransitManager/Systems/SmartTransitSystem.cs:471-500 | a stop that is busy, or on a line over target, ends up latched |
| SmartTransit.LatchReleasesOnlyWhenCool | TransitManager/Systems/SmartTransitSystem.cs:501-508 | a latched stop is released only when it is not busy, the line is not over target and its queue is at most the exit level |
| SmartTransit.LatchHoldsInBand | TransitManager/Systems/SmartTransitSystem.cs:461-511 | with the queue strictly between the exit and enter levels and the line not over target, the latch does not move |
| SmartTransit.LatchLocal | TransitManager/Systems/SmartTransitSystem.cs:461-511 | the latch of every other stop is left alone |
| SmartTransit.AlertBudget | TransitManager/Systems/SmartTransitSystem.cs:461-500 | one line posts at most one chirp, counts each one it posts, stays within the pass limit and never posts for a latched stop |
| SmartTransit.SmartTransitSystem.constructor | TransitManager/Systems/SmartTransitSystem.cs:58-70 | the two busy levels (in percent) and the chirp toggle are read once at creation; one alert per pass; empty latch |
| SmartTransit.SmartTransitSystem.UpdateBusyStop | TransitManager/Systems/SmartTransitSystem.cs:461-511 | the alert block changes the latch and the chirps exactly as the alert step says, and nothing else |
| SmartTransit.SmartTransitSystem.ProcessRoute | TransitManager/Systems/SmartTransitSystem.cs:201-579 | the line's write is its evaluation (none when skipped), and its alert effect is the alert step of its reading |
| SmartTransit.SmartTransitSystem.RouteBudget | TransitManager/Systems/SmartTransitSystem.cs:461-500 | the budget of one line, for a skipped line as well |
| SmartTransit.SmartTransitSystem.PassBudget | TransitManager/Systems/SmartTransitSystem.cs:199-500 | over any number of lines the alert count stays within the per-pass limit and matches the chirps posted, and the latch holds only true |
| SmartTransit.SmartTransitSystem.OnUpdate | TransitManager/Systems/SmartTransitSystem.cs:188-589 | the writes of a pass are its lines' writes in query order, the chirps are those of the alert steps, and at most one per pass |
| SmartTransit.UpdateInterval | TransitManager/Systems/SmartTransitSystem.cs:97-101 | a day of 262144 ticks divided by the updates per day: 8192, 4096 or 16384 ticks |

## Left out

- Logging, the `debug` messages and localisation of the chirp text are not modelled. A chirp is recorded as its stop, its line and its queue size.
- The entity-component world is not modelled. Queries, prefab lookups and component buffers are inputs in the shape the code reads them: a line's models, vehicle buffers and waypoints, and the prefabs by entity.
- The game's vehicle-count maths is not modelled: CalculateVehicleCountFromAdjustment, CalculateStableDuration, TransportLineSystem.CalculateVehicleCount and RouteUtils.ApplyModifier. The controller receives the counts these produce (`maxVehicles`, `minVehicles`, `setVehicles`) as inputs.
- SmartTransit.PolicyWrite records the vehicle count behind the vehicle-interval slider, not the float interval `100 / (stableDuration / (defaultInterval * count))` written to the policy.
- Float arithmetic is modelled on reals; single-precision rounding is not modelled. `0.3f` is 0.3, and Math.Round is round-half-to-even on the exact value. Division by zero follows IEEE: infinities and NaN, as TransitControl.Load.
- Integer overflow of the 32-bit ints (ticket prices, counts, products of capacities) is not modelled; integers are unbounded.
- TransitControl.LegacyId: the controller passes the int rule key stored in RouteRule to GetCustomRule, which takes a 128-bit id. The conversion between them is not shown in the source, so the model widens the key's 32-bit pattern.
- TransitControl.RouteTerms: SmartTransitSystem.cs:391 destructures eight values (a discarded first one, then name and six ints) from ManageRouteSystem.GetCustomRule, which returns seven (ManageRouteSystem.cs:189). As written this does not compile. The model reads the seven returned values in order as the name and the six ints the eight targets list after the discarded one, which is the evident intent.
- Ids.ToText: the text form of Colossal.Hash128 is not shown in the source. The model uses 32 lowercase hex digits, parsed case-insensitively. Only the round trip and injectivity are relied on.
- The numeric codes of the game's TransportType (the keys of the rule-name table) are not in the source. The model fixes the game's values; the proofs rely only on their being distinct.
- The five custom rule names name_Custom1..5 are not part of the settings shown, so ManageRoute takes them as a parameter.
- ManageRouteSystem.SetRouteRuleForRoute and ManageRouteSystem.GetRoutesForUI are called by the bridge but are not part of this model. The forwarded calls are recorded, and the routes are an input.
- The six bridge members that only forward to the registry are the registry members themselves in this model: SetRouteRule, GetRouteRule, GetRouteRules, GetCustomRules, GetCustomRule and RemoveCustomRule.
- JSON deserialization of the panel payloads (Newtonsoft) is an input: the decoded record, or none when decoding fails. The serializer's output text for the two rule lists is modelled as the calls made on the JSON writer.
- Exceptions caught by the UI systems are modelled as their effect at the point of the throw: an unavailable registry, an over-long fixed-string name, or an id text that does not parse.
- CustomRulesUI.CustomRulesUISystem.GetCustomRulesJson, AllRoutesUI.AllRoutesUISystem.WriteRouteInfos: without a registry the bridge getter throws an exception these members do not catch. The model stops at the throw: the list has been cleared and nothing is written. What the exception then does in the binding that called them is not modelled. (CustomRulesUI.CustomRulesUISystem.DeleteCustomRule catches its exception and is modelled fully: the list is kept.)
- ManageRoute.ManageRouteSystem.RemoveCustomRule, ManageRoute.RemoveProperties: the rule list is modelled as an ordered sequence from which the removed entity is cut out, so the rest keep their order. The engine's DestroyEntity moves the chunk's last entity into the freed slot, so the order GetCustomRules and the custom-rules panel show after a delete may differ; store order after a delete is not modelled. The set of rules, their ids and the values each id reads are what the model promises.
- Components.ToFixedString64, Components.OversizedNameRefused, Bridge.SetCustomRule, SmartTransportationUI.SmartTransportationUISystem.AddCustomRuleFromUI: the conversion of a string to the 64-byte fixed string is assumed to throw for a name longer than 61 UTF-8 bytes (Unity.Collections with collection checks enabled). A build without those checks truncates the name instead, stores the truncated name and runs both refreshes; that variant is not modelled.
- Bridge.AddCustomRule: the zero-argument registry AddCustomRule it forwards to is not defined among the registry's members (only the seven-argument one at ManageRouteSystem.cs:239 is). Its behaviour, a rule with an empty name and zero values whose id is returned, is inferred from the bridge's description.
- ManageRoute.ManageRouteSystem.AddCustomRule, Bridge.AddCustomRule, SmartTransportationUI.SmartTransportationUISystem.AddCustomRuleFromUI: `Guid.NewGuid()` (Components/CustomRule.cs:28) is a parameter `freshId` whose absence from the stored ids is a precondition. Uniqueness of a random Guid is assumed, not derived. The description's promise that the new id does not conflict with the built-in rules' ids is not stated either, for the same reason.
- Domain.RouteInfo.Write, Domain.DisabledTransportTypes.Write: `Mod.Name` is not defined in any file of this model; its value is taken to be "SmartTransportation", the mod's namespace.
- TransitManager/Systems/AddCustomRuleUISystem.cs repeats the add-then-set sequence of SmartTransportationUISystem.AddCustomRuleFromUI, so it has no model of its own; SmartTransportationUI.AddThenSet states that sequence.
- The lifecycle hooks that register bindings and triggers (OnCreate, OnGameLoaded) are not modelled, nor are the context files of the TypeScript panels.
- Text.Utf8Length counts a UTF-16 surrogate pair as a single character of four bytes, since Dafny strings hold scalar values; a lone surrogate cannot be represented.
