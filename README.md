# AI train traffic control: the digital twin, the login form and the view router

This project models, in Dafny, the logic of a browser dashboard that simulates
AI-assisted train traffic control. Three parts of the program are modelled:

- **The traffic digital twin** (`useMockData`). It holds the trains, signals,
  blocks and KPI cards of the active region, plus bounded queues of alerts and
  log entries with their id counters. One interval of the simulation runs in a
  fixed order:
  1. Each signal turns red if its protected block is held, and green otherwise.
  2. Each train takes one step along its waypoint path. It stops at the end of
     the path. It halts at a red signal less than 20 units ahead. It advances
     its path index within 5 units of a waypoint. Otherwise it moves
     `direction * speed / 20` along its line.
  3. Block occupancy is rebuilt from the new positions. The first train in
     roster order claims a block.
  4. A canned "hold MNT-007" alert is raised at most once per region
     selection: the first time that train is seen halted. Selecting a region
     clears the latch.
  5. The punctuality KPI is refreshed when the 5-second throttle lets it
     through.

  The model also covers:
  - the initial occupancy population, where the last train in roster order
    wins;
  - the region switch;
  - the block lookup on the static block table;
  - the two canned-answer dispatchers (what-if scenarios and element
    suggestions).
- **The login form.** Validation comes first: a username that is blank after
  `trim`, then an empty password. After the simulated network delay, the
  credentials are compared with the hard-coded pair.
- **The view router.** A single `view` field is overwritten by the screens'
  callbacks, and `renderView` switches on it.

Modules, one per concern:

- `TwinTypes` (types.dfy): the records of types.ts, plus `find` by id.
- `BlockMap` (blocks.dfy): the block table and the position lookup.
- `Occupancy` (occupancy.dfy): the two occupancy loops.
- `Movement` (movement.dfy): the signal refresh and the train step.
- `Fixtures` (fixtures.dfy): the region data.
- `Punctuality` (kpi.dfy): the punctuality KPI.
- `Advisor` (advisor.dfy): the dispatchers.
- `Twin` (twin.dfy): the `DigitalTwin` class, which holds the state and the
  callbacks.
- `LoginForm` (login.dfy) and `AppShell` (app.dfy): the login form and the view
  router.

Positions are exact `real`s. Every fixture speed is a multiple of 5, so each
move is a multiple of 1/4.

Some properties of the source that the proofs make visible:
- A halted train keeps speed 0 from then on. The step never restores the
  speed, so the train never moves again (`Movement.StoppedTrainStaysPut`).
- Signals follow the occupancy that the previous tick left. The refresh reads
  the blocks before the same tick recomputes them.
- A train's `currentBlock` is set even when another train already holds that
  block.

## Model

| member | source | states |
|---|---|---|
| `BlockMap.LookupIn` | ai-powered-train-traffic-control/hooks/useMockData.ts:49-55 | the result is an id exactly when some table entry covers the point (same line, start <= x < end); that id belongs to the first covering entry |
| `BlockMap.GetBlockIdForPosition` | ai-powered-train-traffic-control/hooks/useMockData.ts:49-55 | the loop with early return yields a block id iff a table entry covers the position, and that entry carries the id; it agrees with the lookup function |
| `BlockMap.TableExtentsDisjoint` | ai-powered-train-traffic-control/hooks/useMockData.ts:11-15 | no position lies in two blocks of the table (adjacent half-open ranges on each line) |
| `BlockMap.BlockForExact` | ai-powered-train-traffic-control/hooks/useMockData.ts:11-15 | the lookup answers `id` iff the block named `id` covers the position |
| `BlockMap.BlockForNone` | ai-powered-train-traffic-control/hooks/useMockData.ts:11-15 | there is no block exactly off the lines y = 100, 200, 300 or outside 0 <= x < 900 |
| `BlockMap.BoundaryBelongsToSecondBlock` | ai-powered-train-traffic-control/hooks/useMockData.ts:12-14 | x = 400 on each line falls in that line's "-B" block |
| `TwinTypes.IndexOfBlock` | ai-powered-train-traffic-control/hooks/useMockData.ts:154 | `blocks.find` by id: the first block with that id, or none when no block has it |
| `TwinTypes.FindTrain` | ai-powered-train-traffic-control/hooks/useMockData.ts:186 | `trains.find` by id: a roster train with that id, the first one, or none when no train has it |
| `Occupancy.Cleared` | ai-powered-train-traffic-control/hooks/useMockData.ts:150 | every block emptied, ids and order kept |
| `Occupancy.ClaimOne` | ai-powered-train-traffic-control/hooks/useMockData.ts:154-155 | one loop pass keeps block ids and order; the reference definition of one claim, which `Occupancy.ClaimInto` is proved equal to |
| `Occupancy.ClaimAll` | ai-powered-train-traffic-control/hooks/useMockData.ts:151-156 | the claim loop keeps block ids and order |
| `Occupancy.Relocated` | ai-powered-train-traffic-control/hooks/useMockData.ts:152-153 | every train's `currentBlock` becomes its looked-up block, claimed or not; length, order and all other fields kept |
| `Occupancy.FirstWinsOccupant` | ai-powered-train-traffic-control/hooks/useMockData.ts:149-156 | after the tick's recompute a block holds exactly the earliest train in roster order that maps to it, or nothing if none does |
| `Occupancy.FirstClaimantIsAClaimant` | ai-powered-train-traffic-control/hooks/useMockData.ts:151-156 | the tick's occupant exists iff some train maps to the block; it is such a train and no earlier train maps there |
| `Occupancy.LastWinsOccupant` | ai-powered-train-traffic-control/hooks/useMockData.ts:95-103 | after the initial population a block holds exactly the latest train in roster order that maps to it |
| `Occupancy.LastClaimantIsAClaimant` | ai-powered-train-traffic-control/hooks/useMockData.ts:97-101 | the population's occupant exists iff some train maps to the block; it is such a train and no later train maps there |
| `Occupancy.OccupantClaims` | ai-powered-train-traffic-control/hooks/useMockData.ts:149-156 | under either policy every occupant is the id of a train whose `currentBlock` names that block (the first block with that id) |
| `Occupancy.OccupantIsPositioned` | ai-powered-train-traffic-control/hooks/useMockData.ts:151-156 | after a recompute over the relocated roster, every occupant is a train whose position the block table maps to that block |
| `Occupancy.NoTrainInTwoBlocks` | ai-powered-train-traffic-control/hooks/useMockData.ts:149-156 | with unique train ids no train occupies two blocks |
| `Occupancy.RecomputeConsistent` | ai-powered-train-traffic-control/hooks/useMockData.ts:151-156 | after a recompute every occupant is a roster train whose `currentBlock` names the block |
| `Occupancy.ClaimInto` | ai-powered-train-traffic-control/hooks/useMockData.ts:154-155 | one loop pass on the copied block array: the first block with the train's block id is claimed (if still unclaimed, for the tick) |
| `Occupancy.RecomputeOccupancy` | ai-powered-train-traffic-control/hooks/useMockData.ts:149-157 | the loop over the roster returns the relocated trains and the cleared blocks claimed in roster order under the given policy |
| `Movement.RefreshSignals` | ai-powered-train-traffic-control/hooks/useMockData.ts:115-119 | each signal is Red iff its protected block's occupant is truthy, Green otherwise, never Yellow; id, position, protected block, length and order kept |
| `Movement.SignalRedIffClaimed` | ai-powered-train-traffic-control/hooks/useMockData.ts:116-118 | after a recompute, a signal is red iff some roster train maps to the first block with the protected id |
| `Movement.SignalAhead` | ai-powered-train-traffic-control/hooks/useMockData.ts:130-133 | `find` over the signals: the result is a listed signal on the train's line, strictly ahead in its direction and under 50 units away, and no earlier signal in the list is; none means no listed signal is |
| `Movement.MustHalt` | ai-powered-train-traffic-control/hooks/useMockData.ts:137-140 | reference definition of the halt test (the first signal ahead is red and under 20 units away), characterised by `Movement.StepMoving` |
| `Movement.StepTrain` | ai-powered-train-traffic-control/hooks/useMockData.ts:125-146 | a step changes only speed, status, position and path index; y is kept; the index grows by at most one; the speed is kept or becomes 0 |
| `Movement.StepAll` | ai-powered-train-traffic-control/hooks/useMockData.ts:124-146 | the roster keeps its length and order, each train stepped |
| `Movement.StepAtPathEnd` | ai-powered-train-traffic-control/hooks/useMockData.ts:126-127 | with no next waypoint only the speed is set to 0 |
| `Movement.StepAtWaypoint` | ai-powered-train-traffic-control/hooks/useMockData.ts:142-143 | within 5 units of the target only the path index increases by one |
| `Movement.StepMoving` | ai-powered-train-traffic-control/hooks/useMockData.ts:128-145 | away from the target: status Halted and speed 0 iff the first signal ahead is red and under 20 units away, otherwise Delayed iff delay > 0, else OnTime; x moves by direction * speed/20, y is kept |
| `Movement.StoppedTrainStaysPut` | ai-powered-train-traffic-control/hooks/useMockData.ts:135-145 | a train with speed 0 keeps speed 0 and does not move |
| `Movement.StepApproachesTarget` | ai-powered-train-traffic-control/hooks/useMockData.ts:142-145 | an unheld train moving under 10 units a tick gets strictly closer to its waypoint, and closes in by its full step unless it ends within the 5-unit tolerance |
| `Fixtures.EmptyBlocks` | ai-powered-train-traffic-control/hooks/useMockData.ts:29 | one unoccupied block per table entry, in table order |
| `Fixtures.NetworkData` | ai-powered-train-traffic-control/hooks/useMockData.ts:18-44 | exactly the two named regions have data, and their blocks start empty |
| `Fixtures.RegionBlocksConsistent` | ai-powered-train-traffic-control/hooks/useMockData.ts:41 | a region's fresh blocks satisfy the occupancy invariant |
| `Punctuality.OnTimeCount` | ai-powered-train-traffic-control/hooks/useMockData.ts:172 | the count of zero-delay trains is at most the roster size, equal to it iff no train is delayed, 0 iff every train is |
| `Punctuality.TrendOf` | ai-powered-train-traffic-control/hooks/useMockData.ts:175 | trend Up iff the new value is greater, Down iff smaller, Stable iff equal |
| `Punctuality.RefreshPunctuality` | ai-powered-train-traffic-control/hooks/useMockData.ts:171-176 | only the punctuality card changes, to the roster's on-time percentage with its trend against the previous value |
| `Punctuality.PunctualityOf` | ai-powered-train-traffic-control/hooks/useMockData.ts:172-174 | reference definition of the exact on-time percentage (100 for an empty roster), characterised by `Punctuality.PunctualityBounds` |
| `Punctuality.PunctualityBounds` | ai-powered-train-traffic-control/hooks/useMockData.ts:172-174 | the percentage lies in [0, 100], is 100 iff no train is delayed (or the roster is empty) and 0 iff every train is |
| `Advisor.WhatIfChecksTrainFirst` | ai-powered-train-traffic-control/hooks/useMockData.ts:185-187 | "Train not found." is the answer iff no roster train has the id, whatever the disruption |
| `Advisor.WhatIfUnknownScenario` | ai-powered-train-traffic-control/hooks/useMockData.ts:188-191 | for a known train, "Unknown scenario." iff the disruption is neither delay_10 nor engine_fault |
| `Advisor.OptimizeOnlyWhenLate` | ai-powered-train-traffic-control/hooks/useMockData.ts:197-201 | a train suggestion titled "Optimize <id>" implies the train exists and its delay is over 10 |
| `Advisor.LateTrainOptimized` | ai-powered-train-traffic-control/hooks/useMockData.ts:200 | a known train with delay over 10 gets the "Optimize <id>" title |
| `Advisor.BlockSuggestionMonitors` | ai-powered-train-traffic-control/hooks/useMockData.ts:205-208 | the block suggestion is "Monitor Block <id>" iff the block is unknown or its occupant is falsy |
| `Advisor.UnknownKindSuggestion` | ai-powered-train-traffic-control/hooks/useMockData.ts:209-210 | any other element type gets the default suggestion |
| `Advisor.StationLabels` | ai-powered-train-traffic-control/hooks/useMockData.ts:202-204 | the three station ids are labelled by their names, any other id by itself |
| `Advisor.FindStation` | ai-powered-train-traffic-control/hooks/useMockData.ts:203 | `networkStations.find` by id: a listed station with that id and no earlier station with it, or none when no station has it |
| `Advisor.RunWhatIfScenario` | ai-powered-train-traffic-control/hooks/useMockData.ts:185-193 | reference definition of the what-if answer, characterised by `Advisor.WhatIfChecksTrainFirst` and `Advisor.WhatIfUnknownScenario` |
| `Advisor.GetAiSuggestion` | ai-powered-train-traffic-control/hooks/useMockData.ts:195-212 | reference definition of the suggestion dispatch on the element type, characterised by `Advisor.OptimizeOnlyWhenLate`, `Advisor.LateTrainOptimized`, `Advisor.StationLabels`, `Advisor.BlockSuggestionMonitors` and `Advisor.UnknownKindSuggestion` |
| `Twin.Capped` | ai-powered-train-traffic-control/hooks/useMockData.ts:71 | the new entry is in front, the result has at most `cap` entries, and the rest is the newest prefix of the old queue |
| `Twin.CappedNewestFirst` | ai-powered-train-traffic-control/hooks/useMockData.ts:69-76 | pushing the counter's id keeps ids strictly decreasing from the head and below the incremented counter |
| `Twin.HoldFires` | ai-powered-train-traffic-control/hooks/useMockData.ts:161-162 | reference definition of the step 4 condition (MNT-007 is in the roster, halted and not latched), used by `Twin.DigitalTwin.CheckHold` and `Twin.DigitalTwin.Tick` |
| `Twin.LatchedHoldIsSilent` | ai-powered-train-traffic-control/hooks/useMockData.ts:161-165 | once MNT-007 is in the latch the hold alert cannot fire |
| `Twin.DigitalTwin.constructor` | ai-powered-train-traffic-control/hooks/useMockData.ts:58-67 | the initial state is the Delhi Division data with no alerts or logs, an empty latch and both counters at 1 |
| `Twin.DigitalTwin.AddLog` | ai-powered-train-traffic-control/hooks/useMockData.ts:69-72 | the entry takes the current log id and goes in front, at most 100 are kept, the counter grows by one, nothing else changes |
| `Twin.DigitalTwin.AddAlert` | ai-powered-train-traffic-control/hooks/useMockData.ts:74-78 | the alert takes the current alert id and goes in front, at most 5 are kept, and exactly one Alert log "title: message" is added |
| `Twin.DigitalTwin.SelectRegion` | ai-powered-train-traffic-control/hooks/useMockData.ts:80-91 | an unknown region changes nothing; a known one logs the switch, reloads the region's network, empties the alerts and clears the latch, keeping earlier logs |
| `Twin.DigitalTwin.RegionActivated` | ai-powered-train-traffic-control/hooks/useMockData.ts:93-107 | the trains are relocated and every block holds its latest claimant; one System log is added |
| `Twin.DigitalTwin.Advance` | ai-powered-train-traffic-control/hooks/useMockData.ts:114-158 | signals from the previous occupancy, trains stepped against the new signals, blocks recomputed first-wins; queues and latch untouched |
| `Twin.DigitalTwin.CheckHold` | ai-powered-train-traffic-control/hooks/useMockData.ts:160-165 | the hold alert (and its log) is added and latched iff MNT-007 is halted and not yet latched; otherwise nothing changes |
| `Twin.DigitalTwin.Tick` | ai-powered-train-traffic-control/hooks/useMockData.ts:109-180 | the whole interval, steps 1 to 4 and the throttled punctuality refresh, keeping the queue bounds, id order, latch and occupancy invariants |
| `LoginForm.ValidationError` | ai-powered-train-traffic-control/components/Login.tsx:13-22 | reference definition of `validateInputs` (the first failing field's message, or none), characterised by `LoginForm.BlankUsernameRefused` and `LoginForm.PasswordCheckedAfterUsername` |
| `LoginForm.SubmitOutcome` | ai-powered-train-traffic-control/components/Login.tsx:25-45 | reference definition of one submit's outcome (validation first, then the credential check), characterised by `LoginForm.OnlyExactPairLogsIn` and met by `LoginForm.Submit` |
| `LoginForm.TrimEmptyIffBlank` | ai-powered-train-traffic-control/components/Login.tsx:14 | the trimmed username is empty iff every character is JavaScript whitespace |
| `LoginForm.BlankUsernameRefused` | ai-powered-train-traffic-control/components/Login.tsx:14-17 | a blank username gives exactly "Username is required." whatever the password, without a credential check |
| `LoginForm.PasswordCheckedAfterUsername` | ai-powered-train-traffic-control/components/Login.tsx:13-22 | with a non-blank username an empty password gives "Password is required."; any other password, whitespace included, passes validation |
| `LoginForm.OnlyExactPairLogsIn` | ai-powered-train-traffic-control/components/Login.tsx:38-41 | a submit logs in iff the pair is exactly (controller, password123); any other validated pair gets "Invalid username or password." |
| `LoginForm.PaddedUsernameRefused` | ai-powered-train-traffic-control/components/Login.tsx:38 | " controller" passes validation and is still refused |
| `LoginForm.Login.constructor` | ai-powered-train-traffic-control/components/Login.tsx:8-11 | empty fields, no error, not loading |
| `LoginForm.Login.SetUsername` | ai-powered-train-traffic-control/components/Login.tsx:64 | the username input's change handler stores the value |
| `LoginForm.Login.SetPassword` | ai-powered-train-traffic-control/components/Login.tsx:77 | the password input's change handler stores the value |
| `LoginForm.Login.ValidateInputs` | ai-powered-train-traffic-control/components/Login.tsx:13-23 | returns true iff both fields pass; on failure the error is the first failing field's message |
| `LoginForm.Login.HandleLogin` | ai-powered-train-traffic-control/components/Login.tsx:25-34 | the error is cleared and then set by validation; loading starts only if validation passes, and the current credentials are captured for the delayed check |
| `LoginForm.Login.CompleteLogin` | ai-powered-train-traffic-control/components/Login.tsx:36-44 | success iff the captured pair is exact; otherwise the invalid-credentials error; loading ends either way |
| `LoginForm.Submit` | ai-powered-train-traffic-control/components/Login.tsx:25-45 | a whole submit ends in the outcome the validation-then-check rule gives, with the matching error shown; the form is not loading after a credential check, a validation failure leaves the loading flag as it was, and the fields are kept |
| `AppShell.RenderView` | ai-powered-train-traffic-control/App.tsx:19-30 | reference definition of `renderView`, characterised by `AppShell.RenderViewFallback` |
| `AppShell.RenderViewFallback` | ai-powered-train-traffic-control/App.tsx:19-30 | each view has exactly one screen, and any value other than landing or dashboard shows the login screen |
| `AppShell.LandingUnreachable` | ai-powered-train-traffic-control/App.tsx:8-29 | from login, every sequence of offered callbacks leaves the view at login or dashboard, so the landing page is never shown |
| `AppShell.LoginLogoutRoundTrip` | ai-powered-train-traffic-control/App.tsx:10-17 | login success shows the dashboard, and logout from there returns to login |
| `AppShell.App.constructor` | ai-powered-train-traffic-control/App.tsx:8 | the initial view is login |
| `AppShell.App.HandleLoginSuccess` | ai-powered-train-traffic-control/App.tsx:10-12 | the view becomes dashboard |
| `AppShell.App.HandleLogout` | ai-powered-train-traffic-control/App.tsx:14-17 | the view becomes login |
| `AppShell.App.Launch` | ai-powered-train-traffic-control/App.tsx:22 | the landing page's launch sets the view to login |
| `AppShell.App.Dispatch` | ai-powered-train-traffic-control/App.tsx:19-30 | a callback changes the view only when the screen on show offers it, as the run function says |

## Left out

- React scheduling is not modelled: the `setInterval` timer, effect re-arming, functional-updater batching and stale closures. A tick is one sequential state-to-state step in the order of the code's numbered comments.
- The occupancy effect runs when the active region changes. It is the separate method `RegionActivated`, and the caller runs it after `SelectRegion`. Selecting the region that is already active does not re-run the effect in the source.
- Wall-clock time is a parameter. The 5-second KPI throttle becomes the `kpiDue` flag of `Tick`. The `toLocaleTimeString` timestamps are the opaque string `now`.
- Punctuality is kept as an exact real. The source rounds it with `toFixed(1)`/`parseFloat` before storing it, which can affect a later trend comparison.
- `getConversationalAiResponse` is not modelled: it is regular-expression and locale case-folding text matching. `generateOptimalRoute` is not modelled: it formats dates and returns a fixed path.
- The rendering in Dashboard.tsx, LandingPage.tsx and FeatureRoadmapModal.tsx is not part of this model. Neither is the login button's disabled state while loading.
- The train fields `schedule` and `passengerImpact` are not carried, because nothing in the modelled logic reads or writes them.
- `Twin.DigitalTwin`: `alertId` and `logId` are module-level variables in the source, shared by every instance of the hook. Here they are fields of one twin.
- `Fixtures.NetworkData` looks up only the two own keys. In the source, `networkData[region]` is also truthy for keys inherited from `Object.prototype` (such as "constructor"). For those, `selectRegion` would load undefined state; the model treats them as unknown regions.
- Coordinates are exact reals and speeds and delays are unbounded integers, not JavaScript doubles. This matches the source for the fixture speeds (multiples of 5), where every move is a multiple of 1/4.
- The claim that train positions never leave the block ranges of their line is not stated. It depends on the fixture paths and speeds over many ticks, not on one step.
- `Occupancy.FirstWinsOccupant` is stated only for rosters whose train ids are non-empty strings. The tick's "still unclaimed" test is JavaScript truthiness, so a train with id "" does not keep its claim.
- `Movement.SignalRedIffClaimed` carries the same non-empty-id hypothesis, for the same reason.
- `Advisor`: the canned texts are modelled in full. The lemmas state only which branch answers, told apart by the texts' first characters.
