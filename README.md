# FreeOrion effects execution, modelled in Dafny

This project models the effects engine of FreeOrion, a space-strategy game, and proves properties of the model. An effect is one scripted change to the universe: set a meter, change a planet's type or owner, create a field, add starlanes, send a sitrep, and so on. Effects are grouped into effects groups. Each turn the engine executes every group on the targets its scope selected and, when asked, records in an accounting map why each meter moved.

The model has five layers.

- **Universe** (`universe.dfy`). Objects with meters, owners, systems, fleets, lanes and specials. It also holds the empires, their diplomatic statuses, visibility, the destroy queue, the sitrep queue and the count of random draws.
- **Effects** (`effects.dfy`). The `Effect` datatype, with one constructor per effect class of `universe/Effect.h`, and `EffectsGroup`. Also the classification `IsMeterEffect`, `IsAppearanceEffect`, `IsSitrepEffect` and `IsEmpireMeterEffect`, and the per-pass filter of `GetFilteredEffects`.
- **Single-target execution** (`execution.dfy`, `helpers.dfy`, `recipients.dfy`). `Execute(context)` of every modelled effect as a function from universe to universe. `helpers.dfy` holds the file-local helpers `CreateNewFleet`, `UpdateFleetRoute` and `GenerateSystemName`. `recipients.dfy` holds the recipient switches of `GenerateSitRepMessage` and `SetVisibility`. Lemmas about these are in `rules.dfy`.
- **Batch execution** (`batch.dfy`, `batchrules.dfy`, `queries.dfy`, `engine.dfy`). The batch overloads as specification functions:
  - `Execute(context, targets)`, with the fast paths of SetMeter and SetShipPartMeter;
  - Conditional's split of the targets;
  - `Execute(targets_causes, accounting_map, flags)`, with each kind's early return and SetMeter's accounting loop;
  - `EffectsGroup::Execute`.

  `engine.dfy` holds a class `EffectsEngine` whose fields are the universe and the accounting map. Its methods carry the source's loops, and each one is proved to leave exactly the state the specification function describes. `queries.dfy` holds the loops of `HasMeterEffects` and its siblings and of `GetFilteredEffects`.
- **Orders** (`orderset.dfy`). A class `OrderSet` over a `map<int, Order>`, with `ExamineOrder`, `FindOrders`, `IssueOrder`, `RescindOrder` and `Reset`.

Value references are records. Each holds an evaluation function, its static flags (target-invariant, simple increment, constant expression) and, for a simple increment, its operation. Conditions are records holding a match function. Anything the engine consults but does not own is a parameter of type `Env`: content definitions, species, field types, the pathfinder, the random number generator, user strings.

## Model

| member | source | states |
|---|---|---|
| Effects.ConditionalAspect | universe/Effect.cpp:3979-4013 | A Conditional is a meter, appearance or sitrep effect exactly when some effect in its true or false branch is one. |
| Effects.EmpireMeterIsMeter | universe/Effect.h:297-301 | An effect that reports itself an empire-meter effect also reports itself a meter effect. |
| Effects.AnyHasAspectMeansSome | universe/Effect.cpp:229-251 | A list of effects has an aspect exactly when some element has it. |
| Effects.Filtered | universe/Effect.cpp:3803-3823 | The filtered branch is no longer than the branch, and every effect in it passes every active flag. |
| Effects.FilteredAppend | universe/Effect.cpp:3810-3822 | Filtering keeps the original order: filtering a concatenation concatenates the filtered parts. |
| Effects.FilteredMembership | universe/Effect.cpp:3810-3822 | An effect survives the filter exactly when it is in the branch and passes the pass's flags. |
| Effects.FilteredAllPass | universe/Effect.cpp:3810-3822 | When every effect passes, the filter returns the branch unchanged. |
| Effects.FullPassKeepsAll | universe/Effect.cpp:3810-3822 | On a full pass (no "only" flag, empire meters included) nothing is filtered out. |
| Effects.FilteredEmptyWithoutAspect | universe/Effect.cpp:3813-3818 | A pass restricted to one aspect keeps nothing of a branch with no effect of that aspect. |
| Queries.AnyWithAspect | universe/Effect.cpp:229-251 | The loop that stops at the first effect with the aspect answers exactly whether some effect has it. |
| Queries.HasMeterEffects | universe/Effect.cpp:229-235 | True exactly when some effect of the group is a meter effect. |
| Queries.HasAppearanceEffects | universe/Effect.cpp:237-243 | True exactly when some effect of the group is an appearance effect. |
| Queries.HasSitrepEffects | universe/Effect.cpp:245-251 | True exactly when some effect of the group is a sitrep effect. |
| Queries.ConditionalHasAspect | universe/Effect.cpp:3979-4013 | Searching the true effects, then the false ones, gives the Conditional's classification. |
| Queries.GetFilteredEffects | universe/Effect.cpp:3803-3823 | The loop's output is the order-preserving filter of the branch. |
| Batch.IncrementOf | universe/Effect.cpp:480-489 | Definition of the increment of a simple-increment operation: PLUS yields its right-hand side, MINUS its negation, any other operator none. Stated by IncrementFastPathAgrees and ShipPartIncrementFastPathAgrees. |
| Batch.Partition | universe/Effect.cpp:3781-3784 | Matches and non-matches together are a permutation of the targets. Every match passes the condition, and every non-match fails it. With no condition, every target is a match. |
| Batch.EffectSize | universe/Effect.cpp:3788-3791 | Every effect has size at least one, so a Conditional is larger than any effect in its branches and the recursion through nested Conditionals ends. |
| Batch.FilteredNotLarger | universe/Effect.cpp:3803-3823 | Filtering a branch never makes it larger, so the filtered recursion ends as well. |
| Batch.Record | universe/Effect.cpp:447-448 | The record is appended to the list of that object and meter; every other list is unchanged. |
| Batch.InfoFor | universe/Effect.cpp:420-426 | Definition of the accounting record's cause: the cause type, the specific cause and the entry's source id, labelled with the effect's own label or the cause's when that is empty. Stated by AccountedRecordOf and AccountedRecords. |
| Batch.AccountedStep | universe/Effect.cpp:429-449 | A target without the meter changes nothing. Otherwise the target is executed on its own, and the records of that object and meter grow by one record holding the change and the new value. Other objects and other records are unchanged. |
| BatchRules.SkipAgreesWithFilter | universe/Effect.cpp:300-304 | For every kind but Conditional, the early return of `Execute(targets_causes, ...)` happens exactly when `GetFilteredEffects` would drop the effect. |
| BatchRules.SkippedEffectChangesNothing | universe/Effect.cpp:390-391 | A skipped effect leaves the universe and the accounting map unchanged. |
| BatchRules.CondFilteredOfEmpty | universe/Effect.cpp:3826-3875 | Branches without the pass's aspect run nothing on any targets. |
| BatchRules.EmptyConditionalPass | universe/Effect.cpp:3877-3932 | A Conditional whose branches lack the pass's aspect changes nothing for any entry. |
| BatchRules.GroupWithoutAspectChangesNothing | universe/Effect.cpp:180-191 | A group with no effect of the aspect a pass is restricted to leaves the state unchanged on that pass. |
| BatchRules.SetMeterStep | universe/Effect.cpp:377-384 | SetMeter's single-target Execute sets the meter to the value evaluated with the current value as input. |
| BatchRules.IncrementAllIsGeneralPath | universe/Effect.cpp:490-497 | Adding a constant delta on every target equals per-target execution of a value that adds that delta. |
| BatchRules.IncrementFastPathAgrees | universe/Effect.cpp:470-497 | For a value that really adds a constant, the simple-increment fast path gives the same universe as per-target execution. |
| BatchRules.AssignAllIsGeneralPath | universe/Effect.cpp:461-469 | Assigning one value to every target equals per-target execution, when the value ignores the target and reads no meter `m`. |
| BatchRules.TargetInvariantFastPathAgrees | universe/Effect.cpp:458-469 | Under that condition, the target-invariant fast path gives the same universe as per-target execution. |
| BatchRules.SourceMeterPlusOne | universe/Effect.cpp:461-463 | A value flagged target-invariant that reads the source's meter. |
| BatchRules.SourceMeterPlusOneIgnoresTarget | universe/Effect.cpp:461-463 | That value depends neither on the target nor on the current value. |
| BatchRules.AssignTwo | universe/Effect.cpp:463-468 | The fast-path loop over two distinct targets with the meter sets the first, then the second; the two-target step TargetInvariantFastPathCanDiffer rests on. |
| BatchRules.FastPathUsesValueBefore | universe/Effect.cpp:461-469 | On the fast path, both targets get the source's meter as it was before the loop, plus one. |
| BatchRules.GeneralPathUsesValueAfter | universe/Effect.cpp:315-326 | On the per-target path, the second target sees the meter the first assignment already set. |
| BatchRules.TargetInvariantFastPathCanDiffer | universe/Effect.cpp:458-502 | Ignoring the target is not enough. With the source among the targets, the fast path and per-target execution give different universes. |
| BatchRules.ShipPartIncrementWithoutOperatorDoesNothing | universe/Effect.cpp:667-684 | A SetShipPartMeter simple increment with no operation, or with an operator other than PLUS or MINUS, changes nothing. |
| BatchRules.SetShipPartMeterStep | universe/Effect.cpp:585-612 | SetShipPartMeter's single-target Execute is the one the dispatcher runs. |
| BatchRules.AssignPartAllIsGeneralPath | universe/Effect.cpp:650-665 | Assigning one value to the part meter of every target equals per-target execution, when the part name is fixed and the value ignores the target and reads no such part meter. |
| BatchRules.IncrementPartAllIsGeneralPath | universe/Effect.cpp:686-696 | Adding a constant delta to the part meter of every target equals per-target execution of a value that adds that delta, when the part name is fixed. |
| BatchRules.ShipPartTargetInvariantFastPathAgrees | universe/Effect.cpp:643-665 | Under those conditions, SetShipPartMeter's target-invariant fast path gives the same universe as per-target execution. The name is evaluated once with the source here (line 650) but for every target on the per-target path (line 603), so a fixed name is required. |
| BatchRules.ShipPartIncrementFastPathAgrees | universe/Effect.cpp:667-697 | For a fixed part name and a value that really adds its PLUS or MINUS constant, the simple-increment fast path gives the same universe as per-target execution. |
| BatchRules.AccountedWorldIsGeneralPath | universe/Effect.cpp:428-449 | With accounting, the universe ends as per-target execution leaves it: accounting does not alter the outcome. |
| BatchRules.AccountedKeepsOther | universe/Effect.cpp:428-449 | An object that is not a target is unchanged by the accounting loop. |
| BatchRules.AccountedKeepsMeter | universe/Effect.cpp:428-449 | No meter disappears during the accounting loop. |
| BatchRules.AccountedRecordsUnchanged | universe/Effect.cpp:447-448 | No record is added for another meter or for an object that is not a target. |
| BatchRules.AccountedSkipsMissingMeter | universe/Effect.cpp:431-433 | No record is added for a target without the meter. |
| BatchRules.AccountedRecordOf | universe/Effect.cpp:437-448 | A target listed once that has the meter gets exactly one record. That record's change is the meter's final value minus its value before, and its running total is the final value. So the initial value plus the recorded changes is the final value. |
| BatchRules.AccountedRecords | universe/Effect.cpp:428-449 | The same for every target listed once, and no other record changes. |
| BatchRules.CondFilteredFullPass | universe/Effect.cpp:3826-3875 | On a full pass the filtered Conditional path equals the plain `Execute(context, targets)` of the Conditional. |
| BatchRules.RunFilteredFullPass | universe/Effect.cpp:3849-3859 | On a full pass the filtered branch loop equals the plain branch loop. |
| BatchRules.ConditionalRecordsNothing | universe/Effect.cpp:3877-3932 | A Conditional adds no accounting record, not even for the SetMeter effects in its branches. |
| BatchRules.EntriesWithoutAccounting | universe/Effect.cpp:408-411 | Without an accounting map no effect records anything. |
| BatchRules.GroupWithoutAccounting | universe/Effect.cpp:180-191 | A group executed without accounting leaves the accounting map unchanged. |
| Engine.ElementNotLarger | universe/Effect.cpp:3788-3791 | An effect of a branch is no larger than the branch, which bounds the recursion through nested Conditionals. |
| Engine.EffectsEngine.RunBase | universe/Effect.cpp:315-326 | The loop executes the effect once per target in order, ending in the universe `BaseBatch` describes; the accounting map is untouched. |
| Engine.EffectsEngine.AssignMeter | universe/Effect.cpp:463-468 | The loop gives every target that has the meter the one value; the universe equals `AssignAll`. |
| Engine.EffectsEngine.IncrementMeter | universe/Effect.cpp:492-496 | The loop adds the increment on every target that has the meter; the universe equals `IncrementAll`. |
| Engine.EffectsEngine.SetMeterTargets | universe/Effect.cpp:458-502 | SetMeter on a target list, with its empty-list return, both fast paths and both fallbacks to per-target execution; the universe equals `SetMeterBatch`. |
| Engine.EffectsEngine.AssignPartMeter | universe/Effect.cpp:652-665 | Every ship with the part meter gets the value; the universe equals `AssignPartAll`. |
| Engine.EffectsEngine.IncrementPartMeter | universe/Effect.cpp:686-696 | Every ship with the part meter gets the increment added; the universe equals `IncrementPartAll`. |
| Engine.EffectsEngine.SetShipPartMeterTargets | universe/Effect.cpp:643-703 | SetShipPartMeter on a target list, including the returns without part name or value and the silent return on a bad increment; the universe equals `ShipPartBatch`. |
| Engine.EffectsEngine.RunOnTargets | universe/Effect.cpp:315-326 | `Execute(context, targets)` dispatched by kind; the universe equals `OnTargets`. |
| Engine.EffectsEngine.ConditionalTargets | universe/Effect.cpp:3774-3800 | One split of the targets; each branch runs on its part when both are non-empty; the universe equals `CondOnTargets`. |
| Engine.EffectsEngine.RunListOnTargets | universe/Effect.cpp:3788-3791 | The branch's effects run in order on the same targets; the universe equals `ListOnTargets`. |
| Engine.EffectsEngine.ConditionalSplit | universe/Effect.cpp:3839-3874 | The filtered branches run on the split targets; the universe equals `CondFiltered`. |
| Engine.EffectsEngine.ConditionalFiltered | universe/Effect.cpp:3826-3875 | The branches are filtered, then split and run; the universe equals `CondFiltered`. |
| Engine.EffectsEngine.RunFilteredList | universe/Effect.cpp:3849-3859 | A nested Conditional recurses with the same flags; any other effect runs on the targets. The universe equals `RunFiltered`. |
| Engine.EffectsEngine.AccountedSetMeter | universe/Effect.cpp:428-449 | The accounting loop leaves universe and accounting map exactly as `AccountedTargets` describes. |
| Engine.EffectsEngine.ExecuteEntry | universe/Effect.cpp:394-451 | One targets-causes entry: accounted SetMeter, plain SetMeter, or any other effect on the entry's targets; the state equals `EntryStep`. |
| Engine.EffectsEngine.ExecuteConditional | universe/Effect.cpp:3877-3932 | The branches are filtered once, then each entry is split and run; the universe equals `ConditionalEntries` and the accounting map is untouched. |
| Engine.EffectsEngine.ExecuteEntries | universe/Effect.cpp:307-312 | The loop over the entries; the state equals `EntriesPass`. |
| Engine.EffectsEngine.ExecuteEffect | universe/Effect.cpp:300-313 | A Conditional is never skipped. Any other effect returns at once on the flags it skips, otherwise loops over the entries. The state equals `EffectPass`. |
| Engine.EffectsEngine.ExecuteGroup | universe/Effect.cpp:180-191 | Every effect of the group in turn, with no early return; the state equals `GroupPass`. |
| Execution.ClampFieldSize | universe/Effect.cpp:1772-1782 | The clamped size always lies in [1, 10000]. An in-range size is kept, and one outside is clamped to the nearer bound. |
| Execution.SystemOf | universe/Effect.cpp:2150-2152 | A valid result is a system. A system stands for itself; any other object stands for the system it is in, if that is a system. |
| Execution.EndpointSystems | universe/Effect.cpp:2167-2175 | Every result is a system. |
| Execution.EndpointSystemsMembers | universe/Effect.cpp:2167-2175 | A system is an endpoint exactly when some matched object is that system or lies in it. |
| Execution.NewField | universe/Effect.cpp:1795 | The new field has the type, size and position given, and is in no system. |
| Execution.Rename | universe/Effect.cpp:1807-1815 | Only the name of the object changes. |
| Execution.AddField | universe/Effect.cpp:1795-1805 | One new field of the type and clamped size is added, and nothing but the target changes besides. When the target is a system and the field stands at its position on every given axis, the system lists the field and the field is in it; otherwise the target is unchanged and the field is as FieldFor makes it. |
| Execution.FieldFor | universe/Effect.cpp:1772-1795 | The field has the given type and the clamped size, at the given or the target's position. |
| Execution.SettleField | universe/Effect.cpp:1803-1805 | When the target is a system and the field stands at its position on every given axis, the system lists the field and the field is in it; otherwise nothing changes. |
| Execution.PickDestination | universe/Effect.cpp:2960-2962 | The pick is one of the matching objects. |
| Execution.RouteFleet | universe/Effect.cpp:2963-2989 | A route is set only when the destination has a system, the fleet has a start system, and the path is non-empty and reachable. |
| Execution.SitRepParameters | universe/Effect.cpp:3301-3303 | Definition of the sitrep parameters: one evaluated parameter per tag, in order. Stated by SitRepReachesRecipients. |
| Helpers.CreateNewFleetAtAsWritten | universe/Effect.cpp:45-62 | As written: the universe grows by one fleet when `ship` is a ship. |
| Helpers.CreateNewFleetAtAsWrittenMakesFleet | universe/Effect.cpp:45-62 | The new fleet takes the next free id and holds only the ship. It is owned by the ship's owner, very stealthy, and aggressive when the ship is armed. The ship points at it, no other object changes, and ids stay fresh. |
| Helpers.CreateNewFleetAtAsWrittenDuplicates | universe/Effect.cpp:45-62 | As written, a ship in a fleet ends up listed by both its prior fleet and the new one. |
| Helpers.CreateNewFleetAtSplitsShip | universe/Effect.cpp:45-62 | Corrected: the new fleet holds exactly the ship, and the prior fleet no longer lists it. |
| Helpers.CreateNewFleetInSystemSplitsShip | universe/Effect.cpp:68-92 | The ship and its new fleet are in the system, and the prior fleet no longer lists the ship. |
| Helpers.SpawnInSystemSplitsShip | universe/Effect.cpp:87-89 | The new fleet is created at the system's position and inserted into it. |
| Helpers.CreateNewFleetForSplitsShip | universe/Effect.cpp:1131-1134 | As written: the ship gets a fresh fleet of its own, owned by its owner, and no destruction is queued. Inside a system its prior fleet no longer lists it; outside one the prior fleet is left as it was and still lists it. |
| Helpers.CreateNewFleetForIntendedSplitsShip | universe/Effect.cpp:1131-1134 | Corrected: either way the ship gets a fresh fleet of its own and leaves its prior one. |
| Helpers.LeaveSystem | universe/Effect.cpp:76 | Only the ship's system id changes, to the invalid id. |
| Helpers.LeaveOldSystem | universe/Effect.cpp:74-77 | When the ship is in a system, the system no longer lists it and its system id becomes invalid; otherwise nothing changes. No object but the ship and that system changes. |
| Helpers.MoveShipToSystem | universe/Effect.cpp:73-79 | A ship elsewhere ends up in the named system and listed by it; fleets are untouched. |
| Helpers.DetachFromFleet | universe/Effect.cpp:81-85 | The ship's prior fleet no longer lists it; no other fleet changes. |
| Helpers.UpdateFleetRouteFallback | universe/Effect.cpp:110-146 | With a fleet and an existing next system, the fleet's route is the path, or only the next system when the path is empty. |
| Helpers.FirstUnusedIndex | universe/Effect.cpp:152-163 | Every star name before the returned index is taken, and the name at the index is not. |
| Helpers.SystemNameIsFirstUnused | universe/Effect.cpp:148-165 | The generated name is the first star name no system carries, or empty when all are taken. |
| Helpers.IsDupe | universe/Effect.cpp:154-160 | The inner loop answers exactly whether some system carries the name. |
| Helpers.GenerateSystemName | universe/Effect.cpp:148-165 | The two loops return exactly the name `SystemName` specifies. |
| Helpers.FirstUnusedIsFirst | universe/Effect.cpp:152-163 | Any index with the first-unused property is the one `FirstUnusedIndex` returns. |
| Recipients.SelfIsTheEmpire | universe/Effect.cpp:3317-3322 | SELF addresses exactly the given empire, and nobody for ALL_EMPIRES; sitrep and visibility agree. |
| Recipients.AlliesAndEnemies | universe/Effect.cpp:3324-3348 | Allies are the existing other empires at peace with the empire, enemies those at war. The two sets are disjoint, and both are empty for ALL_EMPIRES. |
| Recipients.BroadcastAffiliations | universe/Effect.cpp:3350-3383 | ANY and HUMAN address every empire and NONE nobody. CAN_SEE addresses the empires that see a matched object at basic visibility or better. |
| Recipients.VisibilityAgreesExceptCanSeeAndHuman | universe/Effect.cpp:3620-3669 | SetVisibility's switch agrees with the sitrep one except for CAN_SEE and HUMAN, for which it addresses nobody. |
| Recipients.RecipientsExist | universe/Effect.cpp:3316-3387 | Except by SELF, only existing empires are addressed. |
| Recipients.CanSeeDiffers | universe/Effect.cpp:3350-3367 | An empire that sees a matched object is a CAN_SEE sitrep recipient but not a CAN_SEE visibility recipient. |
| Recipients.SeesAnyOf | universe/Effect.cpp:3359-3364 | The inner loop answers exactly whether the empire sees some matched object. |
| Recipients.CollectSitrepRecipients | universe/Effect.cpp:3324-3383 | The loop over all empires inserts exactly the existing empires the affiliation addresses. |
| Recipients.ResolveSitrepRecipients | universe/Effect.cpp:3316-3387 | The switch yields exactly `SitrepRecipients`. |
| Recipients.CollectVisibilityRecipients | universe/Effect.cpp:3628-3667 | The loop over all empires inserts exactly the existing empires SetVisibility addresses. |
| Recipients.ResolveVisibilityRecipients | universe/Effect.cpp:3620-3669 | The switch yields exactly `VisibilityRecipients`. |
| EffectRules.SetMeterChangesOnlyThatMeter | universe/Effect.cpp:377-384 | SetMeter on a target without the meter changes nothing. Otherwise only that meter of the target changes, to the value evaluated with the current value as input; no meter is created, and no other object changes. |
| EffectRules.SetShipPartMeterChangesOnlyThatMeter | universe/Effect.cpp:585-612 | Without a part name, a value or a ship target, nothing changes. Otherwise only the ship's meter of the named part changes, to the value evaluated with its current value; no part meter is created. |
| EffectRules.SetEmpireMeterChangesOnlyThatMeter | universe/Effect.cpp:764-782 | Nothing changes unless the evaluated empire exists and has the meter. Then only that meter changes, to the value evaluated with the current value; no object or other empire changes. |
| EffectRules.SetEmpireStockpileSetsThatResource | universe/Effect.cpp:847-858 | Only the evaluated empire's stockpile of the resource changes, to the value evaluated with the current amount, read as zero when none is recorded. A missing empire means no change. |
| EffectRules.SetEmpireCapitalNeedsPlanet | universe/Effect.cpp:904-916 | A planet target becomes the capital of an existing evaluated empire; nothing else changes, and nothing at all without such an empire and planet. |
| EffectRules.SetStarTypeOnlySystem | universe/Effect.cpp:2284-2293 | Only a system target changes, and only its star type, to the value evaluated with the current type as input. |
| EffectRules.SetAggressionOnlyFleet | universe/Effect.cpp:3018-3032 | Only a fleet target changes, and only its aggression. |
| EffectRules.VictoryRecordsOneWin | universe/Effect.cpp:3055-3064 | The empire owning the target gains exactly one win, for the reason given. With no target or no such empire, nothing changes. |
| EffectRules.SetOverlayTextureOnlySystem | universe/Effect.cpp:3494-3503 | Only a system target changes. It takes the texture, and the evaluated size, or 1 without a size. |
| EffectRules.SetTextureOnlyPlanet | universe/Effect.cpp:3552-3557 | Only a planet target changes, and only its surface texture. |
| EffectRules.TypeChangeCouples | universe/Effect.cpp:947-960 | Setting a planet type leaves type and size coupled, and an ordinary size stays with an ordinary type. |
| EffectRules.SizeChangeCouples | universe/Effect.cpp:991-1002 | Setting a size leaves type and size coupled, and leaving asteroid or gas-giant size makes the planet barren. |
| EffectRules.SetPlanetTypeKeepsCoupling | universe/Effect.cpp:947-960 | SetPlanetType on a planet sets the evaluated type, couples the size and changes no other object. |
| EffectRules.SetPlanetSizeKeepsCoupling | universe/Effect.cpp:991-1002 | SetPlanetSize on a planet sets the evaluated size, couples the type and changes no other object. |
| EffectRules.RepairedFocusIsAvailable | universe/Effect.cpp:1039-1072 | An available current focus is kept. Otherwise the preferred focus is taken when available, else the first available one, else the empty focus. |
| EffectRules.SetSpeciesRepairsFocus | universe/Effect.cpp:1033-1078 | SetSpecies sets the species and repairs the focus against the foci the planet then offers. |
| EffectRules.ChooseFocus | universe/Effect.cpp:1039-1072 | The two loops return exactly the repaired focus. |
| EffectRules.SetOwnerSameOwnerIsNoOp | universe/Effect.cpp:1110-1116 | SetOwner changes nothing when there is no target or the owner is unchanged. |
| EffectRules.SetOwnerOfNonShip | universe/Effect.cpp:1118-1120 | On anything but a ship, only that object's owner changes. |
| EffectRules.SplitOffShipMakesFleet | universe/Effect.cpp:1129-1142 | As written: a ship split off gets a new fleet with the old fleet's next and previous systems. Inside a system the old fleet loses the ship; outside one it keeps listing it. The old fleet is queued for destruction exactly when it is then empty. |
| EffectRules.SplitOffShipIntendedMakesFleet | universe/Effect.cpp:1129-1142 | Corrected: the same split, except that the old fleet loses the ship either way, and is queued for destruction exactly when that leaves it empty. |
| EffectRules.AdoptOldFleetRecords | universe/Effect.cpp:1135-1142 | After the split the new fleet takes the old fleet's next and previous systems, nothing else changes, and a destruction request for the old fleet, by no source, is added exactly when it holds no ship. |
| EffectRules.SetOwnerSplitsShip | universe/Effect.cpp:1120-1143 | SetOwner on a ship whose fleet has another owner sets the owner and splits the ship off as written: inside a system the prior fleet loses the ship, outside one it keeps it, and it is queued for destruction exactly when it is then empty. |
| EffectRules.SetOwnerOutsideSystemListsShipTwice | universe/Effect.cpp:1131-1142 | As written, SetOwner on a ship outside any system, whose fleet has another owner, leaves the ship listed by both its prior fleet and its new one, and queues no destruction. |
| EffectRules.AddStarlanesConnects | universe/Effect.cpp:2144-2182 | Every endpoint system is connected both ways with the target's system, and no lane is removed. |
| EffectRules.RemoveStarlanesDisconnects | universe/Effect.cpp:2213-2253 | No lane remains either way between the target's system and any endpoint system, and no lane is added. |
| EffectRules.AddStarlanesKeepsSymmetry | universe/Effect.cpp:2178-2181 | Lane symmetry is preserved by AddStarlanes. |
| EffectRules.RemoveStarlanesKeepsSymmetry | universe/Effect.cpp:2213-2253 | Lane symmetry is preserved by RemoveStarlanes. |
| EffectRules.LinkLanesConnects | universe/Effect.cpp:2177-2181 | The lane loop of AddStarlanes gives the target's system a lane to every endpoint system and each endpoint a lane back, keeps every lane and adds no other. |
| EffectRules.UnlinkLanesDisconnects | universe/Effect.cpp:2247-2253 | The lane loop of RemoveStarlanes leaves no lane either way between the target's system and an endpoint system, adds none and removes no other. |
| EffectRules.AddedLanesKeepSymmetry | universe/Effect.cpp:2177-2181 | Lanes that grow only by pairs between the target's system and endpoint systems, in both directions, stay symmetric. |
| EffectRules.RemovedLanesKeepSymmetry | universe/Effect.cpp:2247-2253 | Lanes that shrink only by pairs between the target's system and endpoint systems, in both directions, stay symmetric. |
| EffectRules.CreateFieldAddsClampedField | universe/Effect.cpp:1756-1825 | With a known field type, exactly one field of that type and the clamped size is added. |
| EffectRules.CreateFieldRunsAfterEffects | universe/Effect.cpp:1818-1824 | The after-effects run with the new field as target. |
| EffectRules.PlaceFieldMakesField | universe/Effect.cpp:1766-1815 | The added object is a field of the type with the clamped size; only the target may change besides. It is inserted into the target when that is a system at its position on every given axis; otherwise the target is unchanged and the field is in no system, at the given or the target's position. |
| EffectRules.PlaceSystemMakesSystem | universe/Effect.cpp:1914-1950 | The added object is a system of the given or drawn star type, its own system; no other object changes. |
| EffectRules.CreateFieldNeedsKnownType | universe/Effect.cpp:1763-1770 | Without a field type, or with an unknown one, CreateField changes nothing. |
| EffectRules.RemoveAbsentSpecialIsNoOp | universe/Effect.cpp:2104-2112 | Removing a special not attached changes nothing. |
| EffectRules.AddSpecialSetsCapacity | universe/Effect.cpp:2052-2064 | Only the target's specials change: the named special is attached, with the capacity evaluated with its current capacity (zero when new) as input, or with that current capacity when none is given. Other specials are unchanged. |
| EffectRules.RemoveSpecialDetaches | universe/Effect.cpp:2104-2112 | Only the target's specials change: the named special is detached and every other one is unchanged. |
| EffectRules.DestroyOnlyRequests | universe/Effect.cpp:2009-2020 | Destroy only queues a request naming target and source (or no object); no object is removed. |
| EffectRules.SetDestinationWithoutMatchIsNoOp | universe/Effect.cpp:2951-2957 | Without a matching location SetDestination changes nothing. |
| EffectRules.SetDestinationRoute | universe/Effect.cpp:2960-2989 | A route set is a non-empty path from the fleet's start system to the picked object's system. |
| EffectRules.SetVisibilityGrants | universe/Effect.cpp:3673-3689 | Each existing empire addressed gets the visibility of the target, or of every match when there is a condition. |
| EffectRules.SitRepReachesRecipients | universe/Effect.cpp:3389-3399 | Each existing recipient gets the sitrep once, for the next turn; other empires are untouched. |
| Effects.HasAspect | universe/Effect.h:128-141 | Definition of IsMeterEffect, IsAppearanceEffect and IsSitrepEffect: false by default, true for the kinds that override it, and for a Conditional as ConditionalAspect states. |
| Effects.PassesFilter | universe/Effect.cpp:3813-3820 | Definition of the per-effect test of GetFilteredEffects: each active "only" flag requires its aspect, and excluding empire meters drops empire-meter effects. Its properties are stated by Filtered, FilteredMembership and SkipAgreesWithFilter. |
| Execution.Apply | universe/Effect.cpp:3758-3772 | Definition of `Execute(context)` dispatched by kind. A Conditional without a target does nothing; otherwise it runs its true effects when there is no condition or the target matches, else its false effects. |
| Execution.ApplyList | universe/Effect.cpp:3762-3770 | Definition: the effects of a branch run one after the other on the same context. |
| Execution.ApplySetMeter | universe/Effect.cpp:377-384 | Definition of SetMeter's single-target Execute; stated by SetMeterChangesOnlyThatMeter. |
| Execution.ApplySetShipPartMeter | universe/Effect.cpp:585-612 | Definition of SetShipPartMeter's single-target Execute; stated by SetShipPartMeterChangesOnlyThatMeter. |
| Execution.ApplySetEmpireMeter | universe/Effect.cpp:764-782 | Definition of SetEmpireMeter's Execute; stated by SetEmpireMeterChangesOnlyThatMeter. |
| Execution.ApplySetEmpireStockpile | universe/Effect.cpp:847-858 | Definition of SetEmpireStockpile's Execute; stated by SetEmpireStockpileSetsThatResource. |
| Execution.ApplySetEmpireCapital | universe/Effect.cpp:904-916 | Definition of SetEmpireCapital's Execute; stated by SetEmpireCapitalNeedsPlanet. |
| Execution.ApplySetPlanetType | universe/Effect.cpp:947-960 | Definition of SetPlanetType's Execute; stated by SetPlanetTypeKeepsCoupling. |
| Execution.ApplySetPlanetSize | universe/Effect.cpp:991-1002 | Definition of SetPlanetSize's Execute; stated by SetPlanetSizeKeepsCoupling. |
| Execution.ApplySetSpecies | universe/Effect.cpp:1033-1078 | Definition of SetSpecies's Execute: a planet takes the species and repairs its focus, a ship only takes the species; stated by SetSpeciesRepairsFocus. |
| Execution.ApplySetOwner | universe/Effect.cpp:1109-1144 | Definition of SetOwner's Execute, as written; stated by SetOwnerSameOwnerIsNoOp, SetOwnerOfNonShip, SetOwnerSplitsShip and SetOwnerOutsideSystemListsShipTwice. |
| Execution.SplitOffShip | universe/Effect.cpp:1120-1142 | Definition of SetOwner's fleet split, as written; stated by SplitOffShipMakesFleet. |
| Execution.SplitOffShipIntended | universe/Effect.cpp:1120-1142 | Definition of the same split with the corrected CreateNewFleet(x, y, ship); stated by SplitOffShipIntendedMakesFleet. |
| Execution.AdoptOldFleet | universe/Effect.cpp:1135-1142 | Definition of the end of SetOwner; stated by AdoptOldFleetRecords. |
| Execution.PlaceField | universe/Effect.cpp:1772-1815 | Definition of CreateField before its after-effects; stated by PlaceFieldMakesField. |
| Execution.PlaceSystem | universe/Effect.cpp:1914-1950 | Definition of CreateSystem before its after-effects; stated by PlaceSystemMakesSystem. |
| Execution.ApplyDestroy | universe/Effect.cpp:2009-2020 | Definition of Destroy's Execute; stated by DestroyOnlyRequests. |
| Execution.ApplyAddSpecial | universe/Effect.cpp:2052-2064 | Definition of AddSpecial's Execute; stated by AddSpecialSetsCapacity. |
| Execution.ApplyRemoveSpecial | universe/Effect.cpp:2104-2112 | Definition of RemoveSpecial's Execute; stated by RemoveSpecialDetaches and RemoveAbsentSpecialIsNoOp. |
| Execution.ApplyAddStarlanes | universe/Effect.cpp:2144-2182 | Definition of AddStarlanes's Execute; stated by AddStarlanesConnects and AddStarlanesKeepsSymmetry. |
| Execution.ApplyRemoveStarlanes | universe/Effect.cpp:2213-2253 | Definition of RemoveStarlanes's Execute; stated by RemoveStarlanesDisconnects and RemoveStarlanesKeepsSymmetry. |
| Execution.ApplySetStarType | universe/Effect.cpp:2284-2293 | Definition of SetStarType's Execute; stated by SetStarTypeOnlySystem. |
| Execution.ApplySetDestination | universe/Effect.cpp:2936-2990 | Definition of SetDestination's Execute; stated by SetDestinationWithoutMatchIsNoOp and SetDestinationRoute. |
| Execution.ApplySetAggression | universe/Effect.cpp:3018-3032 | Definition of SetAggression's Execute; stated by SetAggressionOnlyFleet. |
| Execution.ApplyVictory | universe/Effect.cpp:3055-3064 | Definition of Victory's Execute; stated by VictoryRecordsOneWin. |
| Execution.ApplySitRep | universe/Effect.cpp:3288-3400 | Definition of GenerateSitRepMessage's Execute; stated by SitRepReachesRecipients. |
| Execution.ApplySetOverlayTexture | universe/Effect.cpp:3494-3503 | Definition of SetOverlayTexture's Execute; stated by SetOverlayTextureOnlySystem. |
| Execution.ApplySetTexture | universe/Effect.cpp:3552-3557 | Definition of SetTexture's Execute; stated by SetTextureOnlyPlanet. |
| Execution.ApplySetVisibility | universe/Effect.cpp:3605-3690 | Definition of SetVisibility's Execute; stated by SetVisibilityGrants. |
| Batch.BaseBatch | universe/Effect.cpp:315-326 | Definition of `EffectBase::Execute(context, targets)`: the single-target Execute once per target, in order; the loop of RunBase is proved to end in it. |
| Batch.SetMeterBatch | universe/Effect.cpp:458-502 | Definition of SetMeter on a target list, with both fast paths and both fallbacks; stated by IncrementFastPathAgrees, TargetInvariantFastPathAgrees and TargetInvariantFastPathCanDiffer. |
| Batch.ShipPartBatch | universe/Effect.cpp:643-703 | Definition of SetShipPartMeter on a target list, including its silent returns; stated by ShipPartIncrementWithoutOperatorDoesNothing, ShipPartTargetInvariantFastPathAgrees and ShipPartIncrementFastPathAgrees. |
| Batch.OnTargets | universe/Effect.cpp:315-326 | Definition of `Execute(context, targets)` dispatched by kind: the meter fast paths, Conditional's split, and per-target execution for the rest. |
| Batch.CondOnTargets | universe/Effect.cpp:3774-3800 | Definition of `Conditional::Execute(context, targets)`; its split is stated by Partition. |
| Batch.CondFiltered | universe/Effect.cpp:3826-3875 | Definition of the filtered Conditional on a pass; stated by CondFilteredFullPass and CondFilteredOfEmpty. |
| Batch.RunFiltered | universe/Effect.cpp:3849-3859 | Definition of the loop over a filtered branch; stated by RunFilteredFullPass. |
| Batch.AccountedTargets | universe/Effect.cpp:428-449 | Definition of SetMeter's accounting loop; stated by AccountedWorldIsGeneralPath, AccountedRecords and their siblings. |
| Batch.Skipped | universe/Effect.cpp:304-305 | Definition of each kind's early return; stated by SkipAgreesWithFilter and SkippedEffectChangesNothing. |
| Batch.EntryStep | universe/Effect.cpp:394-451 | Definition of one targets-causes entry: accounted SetMeter, plain SetMeter, or `Execute(context, targets)`. |
| Batch.EntriesPass | universe/Effect.cpp:307-312 | Definition of the loop over the entries; stated by EntriesWithoutAccounting. |
| Batch.ConditionalEntries | universe/Effect.cpp:3877-3932 | Definition of Conditional's loop over the entries; stated by EmptyConditionalPass. |
| Batch.EffectPass | universe/Effect.cpp:300-313 | Definition of `Execute(targets_causes, accounting_map, flags)` of one effect; stated by ConditionalRecordsNothing and SkippedEffectChangesNothing. |
| Batch.GroupPass | universe/Effect.cpp:180-191 | Definition of `EffectsGroup::Execute`; stated by GroupWithoutAspectChangesNothing and GroupWithoutAccounting. |
| Helpers.CreateNewFleetAt | universe/Effect.cpp:45-62 | Definition of the corrected CreateNewFleet(x, y, ship); stated by CreateNewFleetAtSplitsShip. |
| Helpers.CreateNewFleetFor | universe/Effect.cpp:1131-1134 | Definition of SetOwner's choice of overload, as written; stated by CreateNewFleetForSplitsShip. |
| Helpers.CreateNewFleetForIntended | universe/Effect.cpp:1131-1134 | Definition of the same choice with the corrected overload; stated by CreateNewFleetForIntendedSplitsShip. |
| Helpers.CreateNewFleetInSystem | universe/Effect.cpp:68-92 | Definition of CreateNewFleet(system, ship); stated by CreateNewFleetInSystemSplitsShip. |
| Helpers.UpdateFleetRoute | universe/Effect.cpp:110-146 | Definition of UpdateFleetRoute; stated by UpdateFleetRouteFallback. |
| Helpers.SystemName | universe/Effect.cpp:148-165 | Definition of GenerateSystemName's result; stated by SystemNameIsFirstUnused, and the loops of GenerateSystemName are proved to return it. |
| Recipients.SitrepRecipients | universe/Effect.cpp:3316-3387 | Definition of the sitrep recipient switch; stated by SelfIsTheEmpire, AlliesAndEnemies, BroadcastAffiliations and RecipientsExist. |
| Recipients.VisibilityRecipients | universe/Effect.cpp:3620-3669 | Definition of SetVisibility's switch; stated by VisibilityAgreesExceptCanSeeAndHuman and CanSeeDiffers. |
| Orders.SortedUnique | util/OrderSet.h:23 | Two strictly increasing id sequences with the same elements are equal, so iteration order over the map is determined. |
| Orders.SortedIdsAppend | util/OrderSet.h:23 | An id above every key is iterated last, after the others in their order. |
| Orders.Matching | util/OrderSet.h:38-48 | The matching orders are no more than the ids, and `pred` holds for each. |
| Orders.MatchingSnoc | util/OrderSet.h:42-46 | One more id at the end adds its order exactly when it is stored and matched. |
| Orders.MatchingUnderIds | util/OrderSet.h:42-46 | Each matching order is the order stored under the matching id at the same position. |
| Orders.MatchingIdsMembers | util/OrderSet.h:42-46 | An id matches exactly when it is iterated, stored, and its order satisfies `pred`. |
| Orders.MatchingIdsIncreasing | util/OrderSet.h:42-46 | Over ascending ids, the matching ids ascend too. |
| Orders.MatchingFrame | util/OrderSet.h:42-46 | The result depends only on the orders stored under the iterated ids. |
| Orders.FindOrdersExact | util/OrderSet.h:38-48 | An order is found exactly when it is stored under some id and satisfies `pred`. |
| Orders.FindOrdersInIdOrder | util/OrderSet.h:23 | The found orders sit under strictly ascending ids, position by position. |
| Orders.NextOrderId | util/OrderSet.h:55-59 | The id given is unused and above every id in the set; it is 0 for an empty set, else one past the largest. |
| Orders.Issued | util/OrderSet.h:55-59 | The set after an issue holds the order under the new id, and every earlier order unchanged. |
| Orders.Rescinded | util/OrderSet.h:65 | The order is removed only when it exists and can be undone; otherwise the set is unchanged. No other order changes. |
| Orders.RescindIssued | util/OrderSet.h:55-65 | Issuing a rescindable order and rescinding it by the returned id gives back the original set. |
| Orders.RescindKeepsUndoable | util/OrderSet.h:65 | Rescinding an order that cannot be undone leaves it in the set. |
| Orders.IssuedIdsAscend | util/OrderSet.h:55-59 | Successive issues get successive ids. |
| Orders.MatchingExtend | util/OrderSet.h:42-46 | A new id at the end, stored with an order, adds that order exactly when it matches. |
| Orders.FindAfterIssue | util/OrderSet.h:38-59 | After an issue, FindOrders yields what it yielded before, then the new order if it matches. |
| Orders.OrderSet.constructor | util/OrderSet.h:30 | A new set holds no orders. |
| Orders.OrderSet.ExamineOrder | util/OrderSet.h:34 | The order with that id, or none when there is no such order; the set is not changed. |
| Orders.OrderSet.FindOrders | util/OrderSet.h:38-48 | The loop over the map in id order returns exactly `Matching` of the ids in ascending order, and changes nothing. |
| Orders.OrderSet.IssueOrder | util/OrderSet.h:55-59 | The order is stored under a fresh id, which is returned; nothing else changes, and the order can be examined under that id. |
| Orders.OrderSet.RescindOrder | util/OrderSet.h:65 | True exactly when the order exists and can be undone. On success the order is gone; otherwise the set is unchanged. |
| Orders.OrderSet.Reset | util/OrderSet.h:66 | No orders are left. |

## Left out

- MoveTo, MoveInOrbit and MoveTowards, with the ExploreSystem helper: their geometry and fleet bookkeeping make up about 600 lines of floating-point motion, and they are not modelled.
- CreatePlanet, CreateBuilding, CreateShip: they depend on content definitions (planet types available, building and ship designs) outside this model; the effects fall through as no-ops.
- SetEmpireTechProgress, GiveEmpireTech, SetSpeciesEmpireOpinion, SetSpeciesSpeciesOpinion: they depend on the tech tree and the species opinion tables outside this model; treated as no-ops.
- Dump, GetCheckSum, SetTopLevelContent and GetDescription: text output and content binding, not execution.
- Floating point: meters and values are real numbers, so `float` rounding (for example the `float val` of the fast paths) is not modelled.
- Null effect pointers, null targets and null value references: a list of effects cannot hold a null, and targets are ids, so the `if (!effect)` skips and the error-logging returns for missing pointers do not arise. Missing optional value references are `Option` fields and are modelled.
- Logging (ErrorLogger, TraceLogger) is not modelled.
- The mutators of classes outside this model are taken to be plain updates of the modelled fields. These are `System::AddStarlane`/`RemoveStarlane` (universe/Effect.cpp:2179-2180, 2250-2251), `System::Insert`/`Remove`, `Fleet::AddShip`/`RemoveShip`/`SetRoute`/`SetNextAndPreviousSystems` and `Empire::Win` (universe/Effect.cpp:3061). Any check inside them is not captured. In particular, when the target's system is itself an endpoint of AddStarlanes, the model gives it a lane to itself. A second Victory for the same reason records that reason again. The real classes may refuse both.
- Pathfinding, ETA, species registries, field types and user strings come from outside the core: they are fields of `Env`. Random draws are `Env.random`, indexed by a draw counter in the universe.
- Partition: target sets are vectors (universe/Effect.h:18), and the order in which `Condition::Eval` leaves the matches and the non-matches is not part of this model. The model assumes it keeps the targets' order in both parts, as `Partition` does.
- SetMeter's second branch `else if (!accounting_map)` (universe/Effect.cpp:412-417) can never run, because the first branch already handles a null map; it is not modelled.
- Species focus lists come from the species registry; Planet::AvailableFoci is not part of this model.
- ApplySetOwner follows the code as written, so every engine pass leaves a ship split off outside a system listed by its prior fleet (see Findings). The corrected split is `SplitOffShipIntended`, which no effect uses.
- util/OrderSet.cpp is not part of this model. IssueOrder's id rule (one past the largest id, 0 when empty) follows FreeOrion's implementation; the header only promises an id that references the order. `Order::Undo` is reduced to the `undoable` flag of an order, `Order::Execute` (run at once unless `suppress_immediate_execution`) and `ApplyOrders` are not modelled, nor are `begin`/`end` and serialization.
- OrderSet orders are values: the shared pointers of the source, and any aliasing between them, are not modelled.

## Where the fast paths and per-target execution differ

- SetMeter's target-invariant fast path (universe/Effect.cpp:461-469) rests on its comment at line 462: a value that does not depend on the target can be evaluated once. The code does not guarantee that this gives the per-target result. The fast path evaluates the value before any target changes. A target-invariant value may still read meter `m` of an object among the targets, for example the source's own meter. Then the per-target path sees the earlier assignments and the fast path does not (BatchRules.TargetInvariantFastPathCanDiffer). Agreement is proved for values that ignore the target and do not read meter `m` (BatchRules.TargetInvariantFastPathAgrees), and for honest simple increments (BatchRules.IncrementFastPathAgrees).
- Accounting records only what SetMeter's own loop changes (universe/Effect.cpp:428-449). Conditional passes the accounting map on to nested Conditionals only (universe/Effect.cpp:3877-3932), so a SetMeter inside a Conditional changes a meter and records nothing (BatchRules.ConditionalRecordsNothing).
- SetShipPartMeter's simple-increment path returns without doing anything when the value is not an operation or has an operator other than PLUS or MINUS, while SetMeter falls back to per-target execution. The model follows the code.

## Findings

| source | as written | input that shows it | evidently intended | confidence | as-written member | corrected member |
|---|---|---|---|---|---|---|
| universe/Effect.cpp:45-62, 1133-1134 | `CreateNewFleet(x, y, ship)` adds the ship to a new fleet and points the ship at it, but never removes it from the fleet that held it. SetOwner calls this overload for a ship outside any system. | A ship in fleet F, not in a system, whose new owner differs from F's owner: afterwards both F and the new fleet list the ship, and F is not destroyed as empty. | The ship leaves its prior fleet, as the other overload does at lines 81-85. | not executed | Helpers.CreateNewFleetAtAsWritten (Helpers.CreateNewFleetAtAsWrittenDuplicates, EffectRules.SetOwnerOutsideSystemListsShipTwice) | Helpers.CreateNewFleetAt (Helpers.CreateNewFleetAtSplitsShip, EffectRules.SplitOffShipIntendedMakesFleet) |
