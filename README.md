# ADOFAI level stitcher, modelled in Dafny

The system edits levels of the rhythm game *A Dance of Fire and Ice*. A
level is a chain of tiles. Each tile has a raw direction, a resolved turn
angle, a list of timed actions (speed changes, pauses, effects) and a list of
decorations. The stitcher copies a slice of events from a source level into a
target level. It does this in four steps:

1. It computes the absolute hit time of every tile and event in both levels,
   replaying travel and tempo changes.
2. For each copied event it finds the target tile whose time span holds the
   event's time.
3. It turns the remaining time back into an `angleOffset` inside that tile.
4. It renames decoration tags that collide with tags already in the target.

This project models that core and the pieces of the level library it relies
on:

- **`Timing`** (`timing.dfy`)
  - `getTileTravelTime` and `getTilePauseDelay`.
  - The forward pass of `calculateTiming`, as the function `CalculatedTiming`.
    The imperative `CalculateTiming` is proved equal to it.
  - The tempo-entering-tile table, the per-tile pause sums, and the grouped,
    ordered event-time list.
- **`Stitcher`** (`stitcher.dfy`)
  - `stitchLevels`, as a specification `Stitched` with one `StitchStep` per
    copied event.
  - The event filter, the cursor (`initTileState`, the search loop with its
    `0.000001` slack, the tile-0 rule), placement and back-computed
    `angleOffset`, and the tempo/pause update after a pushed SetSpeed or
    Pause.
  - The imperative `StitchLevels` works in place on the target level's tiles
    and is proved equal to `Stitched`.
- **`TagResolver`** (`tag_resolver.dfy`)
  - The reserved-tag set and `getUniqueTag`, with its `_S1`, `_S2`, …
    candidates.
  - The declaration/reference tag branch, and `replaceTagsInString` with its
    JavaScript `trim`.
- **`Levels`** (`level.dfy`): the tile model of the `Level` class.
  - Angle resolution from raw directions, with the heading `_angleDir` and
    the twirl counter `_twirlCount`.
  - Per-floor splitting of actions and decorations on load, and flattening on
    export.
  - Floor append/insert/delete with angle recomputation, and the event-type
    lookups.
  - JavaScript's truncated `%` is written out as `Rem360`.
- **`EffectProcessor`** (`effect_processor.dfy`): `clearDecorations`,
  `clearEvents` and `keepEvents`.
- **`JsonLexer`, `BufferParser`, `ArrayBufferParser`**: the byte-level
  near-JSON normaliser and the raw-newline detector.
  - One four-state scanner (`other | string | escape | comma`) and a
    declarative description of which bytes the normaliser keeps.
  - The two byte-array implementations are each proved equal to that
    description, so they agree byte for byte.
  - Also modelled: leading-BOM removal (EF BB BF), which section 8.1 of
    RFC 8259 allows a parser to ignore.
- **`FormatOld`** (`format_old.dfy`): the old ADOFAI-style pretty-printer
  `exportAsADOFAI` and `formatAsSingleLine` over a JSON tree.

Times, tempos and angles are `real`. The optional event fields read as
`x || 0` (`angleOffset`, `duration`) are `Option`s that default to 0. The
model follows the code as written, including these behaviours a reader may
not expect:

- **`bpmAtTiles[i]`** is the tempo entering tile `i`, before that tile's
  own SetSpeed events (`src/utils/stitcher.ts:61`). `initTileState`
  therefore re-applies the tile's SetSpeeds to it (`:184-191`).
- **Pause order.**
  - `calculateTiming` applies all of a tile's SetSpeed events before any of
    its Pauses, so every Pause is read at the tile's final tempo
    (`:64-106`).
  - `getTilePauseDelay` handles them in stored order, so a Pause stored
    before a SetSpeed is read at the earlier tempo (`:29-36`).
  - `Timing.PauseBeforeSpeedExample` shows one tile where the two differ.
- **Negative angles.**
  - The even-parity angle is JavaScript's truncated remainder
    `(heading - raw) % 360`. It is negative when the heading is below the
    raw direction (`adofai/src/structure/Level.ts:168`).
  - `Levels.NegativeAngleExample` gives one such tile.
- **Recomputation after a floor edit.**
  - It tests the raw twirl count against 0 rather than its parity
    (`Level.ts:151`), whereas loading passes `twirlCount % 2`
    (`Level.ts:139`).
  - It passes 1-based positions, so it never resets the heading to 180.
  - `Levels.RecomputeMirrorsEvenTwirls` and `Levels.StaleHeadingExample`
    state the consequences.
  - An append recomputes twice: `appendFloor` recomputes
    (`Level.ts:331`), and `floorOperation` recomputes again after its
    switch (`Level.ts:318`). `Levels.FloorOpResult` states that the second
    pass keeps the heading and every tile after tile 0, so only the first
    tile's angle can change.
- **The tile-0 rule.** It advances to tile 1 using tile 0's entry tempo and
  ignores tile 0's pause (`src/utils/stitcher.ts:226-235`).
  `Stitcher.RedirectVersusTiming` states the resulting time relative to the
  timing table.

## Model

| member | source | states |
|---|---|---|
| Timing.TravelTime | src/utils/stitcher.ts:19-21 | travel time times tempo is angle/3 (that is, (a/180)·(60/bpm)); non-negative for non-negative angle at positive tempo |
| Timing.AngleOffsetFor | src/utils/stitcher.ts:271-273 | the back-computed offset is 3·timeInTile·bpm |
| Timing.AngleOffsetRoundTrip | src/utils/stitcher.ts:19-21 | travelling the back-computed offset at the same tempo takes exactly the time in the tile |
| Timing.SpeedStep | src/utils/stitcher.ts:30-32 | a SetSpeed keeps a non-zero tempo non-zero and a positive tempo positive when its value is positive |
| Timing.ApplySpeeds | src/utils/stitcher.ts:64-72 | applying a tile's SetSpeeds in stored order keeps the tempo non-zero (positive) |
| Timing.ApplySpeedsNoSetSpeed | src/utils/stitcher.ts:64-72 | a tile with no SetSpeed leaves the tempo unchanged |
| Timing.ApplySpeedsConcat | src/utils/stitcher.ts:64-72 | applying speeds over a concatenation composes |
| Timing.PauseTime | src/utils/stitcher.ts:103-105 | a pause's delay is non-negative for a non-negative duration at positive tempo |
| Timing.PauseSum | src/utils/stitcher.ts:101-106 | the tile's pause delay is non-negative under positive tempo and durations |
| Timing.PauseSumNoPause | src/utils/stitcher.ts:101-106 | a tile with no Pause has delay 0 |
| Timing.PauseSumConcat | src/utils/stitcher.ts:101-106 | pause sums add over concatenation |
| Timing.InterleavedDelay | src/utils/stitcher.ts:26-38 | the interleaved final tempo is non-zero |
| Timing.InterleavedDelayFacts | src/utils/stitcher.ts:26-38 | getTilePauseDelay's final tempo equals the stored-order application of SetSpeeds; no Pause gives delay 0 |
| Timing.InterleavedSpeedsOnly | src/utils/stitcher.ts:26-38 | with no Pause the result is (0, applied speeds) |
| Timing.InterleavedPausesOnly | src/utils/stitcher.ts:26-38 | Pauses after all SetSpeeds are converted at the final tempo |
| Timing.InterleavedSpeedsFirst | src/utils/stitcher.ts:26-38 | when SetSpeeds precede Pauses, getTilePauseDelay agrees with calculateTiming's batched order |
| Timing.PauseBeforeSpeedExample | src/utils/stitcher.ts:29-36 | a Pause before a SetSpeed: interleaved delay 1.0, batched delay 0.5 |
| Timing.GetTilePauseDelay | src/utils/stitcher.ts:26-38 | the loop returns exactly the interleaved (delay, final tempo) |
| Timing.ActionTimes | src/utils/stitcher.ts:76-86 | one entry per action |
| Timing.DecorationTimes | src/utils/stitcher.ts:89-98 | one entry per decoration |
| Timing.TimingStep | src/utils/stitcher.ts:52-110 | one tile keeps the running tempo non-zero |
| Timing.TimingRun | src/utils/stitcher.ts:44-113 | after k tiles: k hit times and k entry tempos, all non-zero |
| Timing.CalculatedTiming | src/utils/stitcher.ts:44-113 | one hit time and one entry tempo per tile, tempos non-zero |
| Timing.TimingStable | src/utils/stitcher.ts:59-61 | entries once pushed are never changed by later tiles |
| Timing.TimingEntry | src/utils/stitcher.ts:55-61 | entry i is the running time plus travel at the running tempo, and that tempo |
| Timing.TimingFirstTile | src/utils/stitcher.ts:49-61 | tileTimes[0] is travel of tile 0's angle at settings.bpm; bpmAtTiles[0] is settings.bpm |
| Timing.TimingRecurrence | src/utils/stitcher.ts:52-110 | bpmAtTiles[i] is bpmAtTiles[i-1] after tile i-1's SetSpeeds; tileTimes[i] = tileTimes[i-1] + pause(i-1) + travel of tile i's own angle at bpmAtTiles[i] |
| Timing.TimingMonotone | src/utils/stitcher.ts:52-110 | tileTimes is non-decreasing under positive tempos, angles and durations |
| Timing.TimingStepForward | src/utils/stitcher.ts:52-110 | consecutive hit times do not decrease under the same conditions |
| Timing.TemposPositive | src/utils/stitcher.ts:60-72 | positive tempos stay positive along the level |
| Timing.BpmAfter | src/utils/stitcher.ts:64-72 | the tempo after tile i's SetSpeeds is non-zero |
| Timing.TileGroup | src/utils/stitcher.ts:76-98 | a tile's event group holds only that tile's index |
| Timing.TimingEvents | src/utils/stitcher.ts:76-98 | event times are grouped by ascending tile index, and the group of tile i is its actions then its decorations in stored order |
| Timing.TimingEventTime | src/utils/stitcher.ts:76-98 | an action's time is the hit time plus travel of its offset at the post-SetSpeed tempo; a decoration's time is the hit time |
| Timing.TimingEventsOf | src/utils/stitcher.ts:76-98 | the entries of tile i in the result are exactly its actions then its decorations, at its hit time and post-SetSpeed tempo |
| Timing.TileEventsAt | src/utils/stitcher.ts:76-98 | entry k of a tile's entries is its k-th action offset by its angle travel, or after the actions its decoration at the hit time |
| Timing.TimingRunAppends | src/utils/stitcher.ts:44-113 | each loop iteration appends exactly the current tile's entries to those of earlier tiles |
| Timing.TimingActionsSafe | src/utils/stitcher.ts:80-85 | every action entry carries a SetSpeed the tempo survives |
| Timing.ApplySetSpeeds | src/utils/stitcher.ts:64-72 | the loop computes the stored-order application of SetSpeeds |
| Timing.SumPauses | src/utils/stitcher.ts:101-106 | the loop computes the tile's pause sum |
| Timing.PauseDelayStep | src/utils/stitcher.ts:30-35 | one action: the delay grows by its Pause time at the current tempo, and the tempo takes its SetSpeed step |
| Timing.PushActionTimes | src/utils/stitcher.ts:76-86 | the entries grow by exactly ActionTimes: one per action, in order, timed by its angleOffset at the post-SetSpeed tempo |
| Timing.PushDecorationTimes | src/utils/stitcher.ts:89-98 | the entries grow by exactly DecorationTimes: one per decoration, in order, at the hit time |
| Timing.TimeTile | src/utils/stitcher.ts:52-110 | one loop iteration computes exactly TimingStep |
| Timing.CalculateTiming | src/utils/stitcher.ts:44-113 | the imperative pass returns exactly CalculatedTiming of the level |
| Stitcher.SelectEvents | src/utils/stitcher.ts:133-141 | the selection is no longer than the event list |
| Stitcher.SelectEventsExactly | src/utils/stitcher.ts:133-141 | the two filters equal one filter; an entry is kept iff startIdx ≤ tileIndex ≤ endIdx and its type is listed (whitelist) or unlisted (blacklist) |
| Stitcher.SelectEventsSafe | src/utils/stitcher.ts:133-141 | selection keeps the tempo-safety of every action |
| Stitcher.InitTileState | src/utils/stitcher.ts:181-199 | the cursor is on the given tile with the given hit time |
| Stitcher.InitMatchesTiming | src/utils/stitcher.ts:181-199 | re-initialisation from the timing table yields the post-SetSpeed tempo and the pause sum of that tile |
| Stitcher.Locate | src/utils/stitcher.ts:207-222 | the cursor never moves back and stays in range; on exit it is on the last tile or the next arrival exceeds desired + 0.000001; each move lands within the slack and re-initialises |
| Stitcher.LocateStays | src/utils/stitcher.ts:207-216 | when the exit condition already holds, the cursor is unchanged |
| Stitcher.LocateStep | src/utils/stitcher.ts:217-221 | otherwise the search moves to the next tile at its arrival time and continues |
| Stitcher.Redirect | src/utils/stitcher.ts:226-235 | the cursor moves iff it is on tile 0, the source tile is not 0 and there is more than one tile; it then moves to tile 1 |
| Stitcher.RedirectVersusTiming | src/utils/stitcher.ts:226-235 | with no SetSpeed on tile 0, the redirected hit time differs from tileTimes[1] by tile 0's pause and the travel of tile 1 minus that of tile 0 |
| Stitcher.Placed | src/utils/stitcher.ts:262-273 | decorations are copied unchanged; actions get an offset whose travel at the cursor tempo is the time in the tile |
| Stitcher.Place | src/utils/stitcher.ts:263-293 | only the cursor's tile changes, by one push onto actions or decorations; the tempo and pause follow the pushed SetSpeed or Pause |
| Stitcher.PlaceMatchesInit | src/utils/stitcher.ts:280-293 | pushing a non-SetSpeed action leaves the cursor as re-initialising the tile would make it |
| Stitcher.StitchStep | src/utils/stitcher.ts:202-295 | one event: tile count kept, cursor monotone, only the chosen tile changes, tags follow the tag branch |
| Stitcher.StitchStepPushes | src/utils/stitcher.ts:207-278 | the event, tag resolved and offset placed, is pushed onto the tile that the search and tile-0 rule chose |
| Stitcher.StitchStepCount | src/utils/stitcher.ts:263-278 | each step adds exactly one event to the target |
| Stitcher.StitchRun | src/utils/stitcher.ts:202-295 | the pass over the first k events; its tag state is the tag fold over those events' tags |
| Stitcher.StitchRunCount | src/utils/stitcher.ts:202-295 | after k events: tile count kept, k events added, cursor not before the start |
| Stitcher.TagRunValid | src/utils/stitcher.ts:238-260 | along the tag fold the tag state stays valid, reserved tags only grow, mappings never change |
| Stitcher.CopiedActionKeepsTime | src/utils/stitcher.ts:270-278 | the pushed action's new offset, travelled at the cursor tempo, takes exactly desired − hit time |
| Stitcher.InitialState | src/utils/stitcher.ts:174-200 | the pass starts on targetStartIndex with the target tiles |
| Stitcher.Stitched | src/utils/stitcher.ts:118-298 | the stitched target has as many tiles as before |
| Stitcher.StitchedPastEnd | src/utils/stitcher.ts:129-135 | a source start at or past the source's tile count selects no event and leaves the target tiles unchanged |
| Stitcher.InitTileStateM | src/utils/stitcher.ts:181-199 | the closure computes exactly InitTileState |
| Stitcher.LocateM | src/utils/stitcher.ts:207-222 | the while loop computes exactly Locate |
| Stitcher.ResolveTagM | src/utils/stitcher.ts:238-260 | the tag branch updates the event, reserved set and mapping exactly as ResolveTag |
| Stitcher.PlaceM | src/utils/stitcher.ts:263-293 | the in-place push on the target tiles computes exactly Place |
| Stitcher.TransferEvent | src/utils/stitcher.ts:202-295 | one loop body computes exactly StitchStep |
| Stitcher.StitchLevels | src/utils/stitcher.ts:118-298 | returns the target object itself, whose tiles become exactly Stitched of the old tiles |
| TagResolver.NatToString | src/utils/stitcher.ts:157 | decimal rendering is non-empty and one digit exactly below 10 |
| TagResolver.NatToStringInjective | src/utils/stitcher.ts:157 | distinct counters render differently |
| TagResolver.Candidate | src/utils/stitcher.ts:157 | a candidate extends the tag |
| TagResolver.CandidateInjective | src/utils/stitcher.ts:157 | distinct counters give distinct candidates |
| TagResolver.CandidateCommaFree | src/utils/stitcher.ts:157 | a candidate `${tag}_S${k}` holds a comma only if its tag does |
| TagResolver.NatToStringDigits | src/utils/stitcher.ts:157 | the decimal text of a counter holds only digits |
| TagResolver.CandidatesCount | src/utils/stitcher.ts:156-158 | k counters give k distinct candidates |
| TagResolver.CandidatesBound | src/utils/stitcher.ts:156-158 | the loop can run only as long as the reserved set is large (termination) |
| TagResolver.FreeCounter | src/utils/stitcher.ts:155-158 | the first free counter from k on, with every earlier candidate reserved |
| TagResolver.UniqueTag | src/utils/stitcher.ts:153-161 | the result is unreserved; a free tag is kept; otherwise it is tag_S{k} for the smallest free k ≥ 1 |
| TagResolver.GetUniqueTag | src/utils/stitcher.ts:153-161 | the while loop returns UniqueTag and adds it to the reserved set |
| TagResolver.TrimStart | src/utils/stitcher.ts:167 | strips exactly the leading JavaScript white space |
| TagResolver.TrimEnd | src/utils/stitcher.ts:167 | strips exactly the trailing JavaScript white space |
| TagResolver.Trim | src/utils/stitcher.ts:167 | no white space at either end; adds no comma |
| TagResolver.TrimNoSpace | src/utils/stitcher.ts:167 | a token without white space is unchanged |
| TagResolver.TrimIdempotent | src/utils/stitcher.ts:167 | trimming twice equals trimming once |
| TagResolver.Lookup | src/utils/stitcher.ts:168 | `get(t) \|\| t`: a non-empty mapping wins, otherwise the token itself |
| TagResolver.RewriteTokens | src/utils/stitcher.ts:166-169 | one output token per input token |
| TagResolver.RewriteTokensAt | src/utils/stitcher.ts:166-169 | each token becomes the lookup of its trimmed form |
| TagResolver.ReplaceTagsInString | src/utils/stitcher.ts:164-170 | the empty string is returned as is |
| TagResolver.ReplaceTagsTokens | src/utils/stitcher.ts:164-170 | whenever comma-free tags map to comma-free tags (so in every valid tag state, including one mapping `a,b` to `a,b_S1`), the token count is unchanged and each token is the lookup of the trimmed original |
| TagResolver.ReplaceTagsUnmapped | src/utils/stitcher.ts:164-170 | a space-free list with no mapped token is unchanged |
| TagResolver.ResolveTag | src/utils/stitcher.ts:238-260 | only the tag changes; reserved tags only grow; existing mappings are kept |
| TagResolver.ResolveTagValid | src/utils/stitcher.ts:241-255 | mappings point at reserved, non-empty tags, and a comma-free tag maps to a comma-free tag; a new mapping comes only from a declaration of that tag |
| TagResolver.DeclarationRenamed | src/utils/stitcher.ts:245-248 | a reserved, unmapped declared tag gets a previously unreserved tag, now reserved and mapped |
| TagResolver.DeclarationReusesMapping | src/utils/stitcher.ts:249-251 | a mapped declared tag reuses the mapping and changes no state |
| TagResolver.SecondDeclarationRenamed | src/utils/stitcher.ts:252-255 | a free declared tag is kept and reserved, so the next declaration of it becomes tag_S1 |
| TagResolver.CandidateIsNotTag | src/utils/stitcher.ts:157 | a candidate never equals the original tag |
| TagResolver.UntaggedUnchanged | src/utils/stitcher.ts:241 | events without a truthy tag pass unchanged |
| TagResolver.ReferenceRewritten | src/utils/stitcher.ts:256-259 | a non-declaration's tag is rewritten by replaceTagsInString, state unchanged |
| TagResolver.EventTags | src/utils/stitcher.ts:148-149 | exactly the truthy tags of the events |
| TagResolver.TargetTagsMember | src/utils/stitcher.ts:146-150 | a tag is reserved iff some action or decoration of some target tile carries it |
| TagResolver.AddEventTags | src/utils/stitcher.ts:148-149 | the loop adds exactly the events' tags |
| TagResolver.CollectTargetTags | src/utils/stitcher.ts:146-150 | the loop collects exactly TargetTags |
| Levels.Rem360 | adofai/src/structure/Level.ts:214-216 | JavaScript `% 360`: strictly within ±360 with the sign of the dividend |
| Levels.Rem360Characterized | adofai/src/structure/Level.ts:214-216 | on non-negative dividends it is the floor remainder; it is odd in its argument |
| Levels.TurnAngle | adofai/src/structure/Level.ts:212-219 | the turn is never 0; even parity in (−360, 360], odd parity in (0, 720) |
| Levels.TurnAngleMirror | adofai/src/structure/Level.ts:212-219 | odd parity is 360 minus even parity, except both read a zero remainder as 360 |
| Levels.ParseAngleCases | adofai/src/structure/Level.ts:203-223 | midspin (999) gives 0 and passes on the previous raw value (0 if none); otherwise a non-zero turn and heading raw + 180 |
| Levels.NegativeAngleExample | adofai/src/structure/Level.ts:212-214 | heading 180 and raw 270 at even parity give −90 |
| Levels.FloorEvents | adofai/src/structure/Level.ts:181-184 | the per-floor list carries no `floor` field |
| Levels.FloorEventsAsFilter | adofai/src/structure/Level.ts:181-184 | it is the source's filter by floor then strip of `floor` |
| Levels.FloorEventsMember | adofai/src/structure/Level.ts:181-184 | an event is selected iff it comes, stripped, from an event of that floor |
| Levels.TwirlsOnFloor | adofai/src/structure/Level.ts:183 | the twirl count of a floor is bounded by the list |
| Levels.TwirlsOnFloorAsFilter | adofai/src/structure/Level.ts:182-183 | it is the length of the Twirl filter of the floor's events |
| Levels.TwirlsBelowMonotone | adofai/src/structure/Level.ts:183 | running twirl counts never decrease |
| Levels.LoadRun | adofai/src/structure/Level.ts:134-145 | after k tiles the loader has built k tiles |
| Levels.LoadStep | adofai/src/structure/Level.ts:135-143 | one iteration adds one tile |
| Levels.LoadRunCounters | adofai/src/structure/Level.ts:138-141 | the twirl counter sums the Twirls of floors 0..k-1; the heading is the one the last tile leaves |
| Levels.LoadRunClosedForm | adofai/src/structure/Level.ts:134-145 | tile i is built with the twirl count of floors 0..i, its own included |
| Levels.LoadedFields | adofai/src/structure/Level.ts:136-142 | each loaded field: direction, previous direction or 0, twirl count, angle, floor actions and decorations |
| Levels.LoadTwirlsMonotone | adofai/src/structure/Level.ts:138-141 | stored twirl counts are non-decreasing along the tiles |
| Levels.FloorlessDecorationsDropped | adofai/src/structure/Level.ts:195-198 | decorations without a floor land on no tile |
| Levels.RecomputeRun | adofai/src/structure/Level.ts:147-155 | recomputation keeps the tile count |
| Levels.RecomputeClosedForm | adofai/src/structure/Level.ts:147-177 | only angles change; tile i's angle comes from tile i-1's heading, tile 0's from the inherited heading |
| Levels.RecomputeTileAt | adofai/src/structure/Level.ts:147-177 | a tile the recomputation has passed keeps every field but its angle, which is turned from the previous tile's heading |
| Levels.RecomputedFields | adofai/src/structure/Level.ts:147-177 | the closed form of one recomputed tile |
| Levels.RecomputeSettles | adofai/src/structure/Level.ts:147-177 | recomputing changes only angles, and a second pass changes at most tile 0 |
| Levels.LoadRecomputeAgree | adofai/src/structure/Level.ts:138-151 | with twirl count at most 1, recomputation reproduces the loaded angle of tiles after the first |
| Levels.RecomputeMirrorsEvenTwirls | adofai/src/structure/Level.ts:138-151 | with an even twirl count ≥ 2, recomputation mirrors the loaded angle |
| Levels.StaleHeadingExample | adofai/src/structure/Level.ts:150-159 | directions [0, 90] load tile 0 at 180, and after an append tile 0 becomes 270 |
| Levels.AppendTile | adofai/src/structure/Level.ts:322-330 | one tile added at the end with angle 0, empty lists, predecessor's direction as lastDir and its twirl |
| Levels.InsertTile | adofai/src/structure/Level.ts:300-309 | one tile inserted at id with the same fresh fields from tile id-1; the others keep their order |
| Levels.SpliceStart | adofai/src/structure/Level.ts:314 | the splice start clamps the id, counting negative ids from the end |
| Levels.DeleteTile | adofai/src/structure/Level.ts:312-316 | removes the tile at the splice start, if any, keeping the others in order |
| Levels.FloorOpResult | adofai/src/structure/Level.ts:295-320 | an append's result recomputed once more is itself: the second recompute keeps the heading and every tile after tile 0 of the first |
| Levels.FloorOpShape | adofai/src/structure/Level.ts:295-320 | append and insert add one tile, delete removes at most one; apart from angles every other tile is kept in order |
| Levels.FlattenAngleData | adofai/src/structure/Level.ts:187-189 | one direction per tile, in order |
| Levels.ActionsWithFloor | adofai/src/structure/Level.ts:192 | every action of tile i carries `floor: i` |
| Levels.FlattenActionsWithFloor | adofai/src/structure/Level.ts:190-194 | every exported action carries the index of a tile as its floor; ExportActionsRoundTrip gives back each tile's actions |
| Levels.DecorationEntries | adofai/src/structure/Level.ts:201 | a tile without a list contributes one `undefined`; a tile with a list contributes its decorations in order |
| Levels.FlattenDecorations | adofai/src/structure/Level.ts:200-202 | an entry is exported iff it is among some tile's entries; FlattenDecorationsAt gives the order |
| Levels.FlattenDecorationsAt | adofai/src/structure/Level.ts:200-202 | the exported decorations are the tiles' entries in tile order: those of the tiles before k, tile k's list (or one `undefined`), then those after k |
| Levels.ExportActionsRoundTrip | adofai/src/structure/Level.ts:181-194 | taking floor i of the exported actions gives tile i's actions without `floor`, in order |
| Levels.ExportedDecorationsHaveNoFloor | adofai/src/structure/Level.ts:195-202 | decorations of a loaded level export without `floor` |
| Levels.FlattenFloorless | adofai/src/structure/Level.ts:200-202 | flattening floorless decorations yields only floorless entries |
| Levels.IndexedActionsMember | adofai/src/structure/Level.ts:226-230 | a pair is listed iff its action is in the actions of its tile |
| Levels.Level.Load | adofai/src/structure/Level.ts:56-86 | absent actions and decorations become empty; tiles and counters are those of the loader run from heading −180, count 0 |
| Levels.Level.FilterByFloor | adofai/src/structure/Level.ts:181-184 | returns the floor's events without `floor` and adds that floor's Twirls to the counter |
| Levels.Level.FilterByFloorWithDeco | adofai/src/structure/Level.ts:195-198 | the same selection, counting nothing |
| Levels.Level.ParseAngle | adofai/src/structure/Level.ts:203-223 | returns the angle and sets the heading as ParseAngleResult |
| Levels.Level.ParseChangedAngle | adofai/src/structure/Level.ts:157-177 | returns the angle and sets the heading as ChangedAngleResult |
| Levels.Level.CreateArray | adofai/src/structure/Level.ts:134-145 | the built tiles and counters are exactly LoadRun |
| Levels.Level.ChangeAngle | adofai/src/structure/Level.ts:147-155 | tiles and heading become exactly Recompute of the old ones |
| Levels.Level.AppendFloor | adofai/src/structure/Level.ts:321-332 | succeeds iff there is a tile; then tiles become the recomputed append, otherwise nothing changes |
| Levels.Level.FloorOperation | adofai/src/structure/Level.ts:295-320 | succeeds iff the predecessor exists; then tiles become FloorOpResult, otherwise nothing changes |
| Levels.Level.ClearDeco | adofai/src/structure/Level.ts:334-337 | tiles become clearDecorations of the old tiles and true is returned |
| Levels.Level.ClearEvent | adofai/src/structure/Level.ts:343-349 | include keeps listed events, exclude clears them, special changes nothing |
| Levels.Level.FilterActionsByEventType | adofai/src/structure/Level.ts:226-235 | a pair is listed iff its action is on its tile and has that type; indexes never decrease; the pairs for tile i are exactly tile i's actions of that type, in stored order and with their multiplicity |
| Levels.IndexedActionsSorted | adofai/src/structure/Level.ts:227-230 | the flattened (index, action) pairs are listed by ascending tile index |
| Levels.FilterKeepsIndexSorted | adofai/src/structure/Level.ts:231 | filtering by type keeps the pairs in ascending index order |
| Levels.Level.GetActionsByIndex | adofai/src/structure/Level.ts:238-245 | count is the number of matches; they are tile index's actions of that type, none out of range |
| Levels.GetActionsByIndexCorrect | adofai/src/structure/Level.ts:238-245 | filtering the indexed pairs by type then index gives that tile's actions of that type |
| Levels.Level.ExportObject | adofai/src/structure/Level.ts:350-356 | one direction per tile in order, the settings, actions whose floor i is tile i's actions and whose every floor is a tile index, and the flattened decorations of FlattenDecorations |
| EffectProcessor.FilterActions | src/adofai/src/filter/effectProcessor.ts:36-40 | a list stays a list, and keeps exactly its members passing the test |
| EffectProcessor.ClearDecorations | src/adofai/src/filter/effectProcessor.ts:24-44 | same number of tiles; decoration lists emptied where present and never added; the preset's event types removed from actions |
| EffectProcessor.ClearEvents | src/adofai/src/filter/effectProcessor.ts:51-62 | same tiles, only actions change; an action is kept iff its type is not listed |
| EffectProcessor.KeepEvents | src/adofai/src/filter/effectProcessor.ts:69-80 | same tiles, only actions change; an action is kept iff its type is listed |
| EffectProcessor.ClearEventsKeepsOrder | src/adofai/src/filter/effectProcessor.ts:55-57 | clearing distributes over concatenation, so order is kept |
| EffectProcessor.KeepEventsKeepsOrder | src/adofai/src/filter/effectProcessor.ts:73-75 | keeping distributes over concatenation, so the kept actions stay in stored order |
| EffectProcessor.KeepClearPartition | src/adofai/src/filter/effectProcessor.ts:51-80 | keep and clear with the same list partition each tile's actions |
| EffectProcessor.ClearEventsIdempotent | src/adofai/src/filter/effectProcessor.ts:51-62 | clearing twice equals clearing once |
| EffectProcessor.KeepEventsIdempotent | src/adofai/src/filter/effectProcessor.ts:69-80 | keeping twice equals keeping once |
| EffectProcessor.ClearDecorationsIdempotent | src/adofai/src/filter/effectProcessor.ts:24-44 | clearing decorations twice equals once |
| EffectProcessor.ClearDecorationsActionsAsClearEvents | src/adofai/src/filter/effectProcessor.ts:36-40 | clearDecorations' actions are clearEvents with MoveDecorations, SetText, SetObject, SetDefaultText |
| BufferParser.StripBOM | src/adofai/src/parser/BufferParser.ts:181-186 | drops a leading EF BB BF and otherwise returns the input |
| BufferParser.StripBOMOfPrefixed | src/adofai/src/parser/BufferParser.ts:181-186 | stripping a BOM-prefixed buffer gives back the rest |
| BufferParser.HasRawNewlineInStringBuffer | src/adofai/src/parser/BufferParser.ts:23-73 | true iff a byte 10 or 13 is read in string state |
| BufferParser.NormalizeJsonUint8 | src/adofai/src/parser/BufferParser.ts:80-144 | the output is exactly the kept bytes of the input |
| ArrayBufferParser.StripBOM | src/adofai/src/parser/ArrayBufferParser.ts:20-26 | removes exactly a leading EF BB BF |
| ArrayBufferParser.StripBOMAgrees | src/adofai/src/parser/ArrayBufferParser.ts:20-26 | agrees with the other parser's stripBOM |
| ArrayBufferParser.NormalizeJsonArrayBuffer | src/adofai/src/parser/ArrayBufferParser.ts:28-93 | the output is exactly the kept bytes, hence byte-for-byte equal to normalizeJsonUint8 |
| JsonLexer.KeptPrefix | src/adofai/src/parser/BufferParser.ts:107-128 | the kept prefix is no longer than the input prefix |
| JsonLexer.NormalizedNotLonger | src/adofai/src/parser/BufferParser.ts:107-133 | output is never longer than input |
| JsonLexer.KeptPrefixWithoutCommas | src/adofai/src/parser/BufferParser.ts:107-133 | with commas deleted the kept prefix equals the input prefix |
| JsonLexer.NormalizedKeepsNonCommas | src/adofai/src/parser/BufferParser.ts:107-133 | with commas deleted output equals input, white space included |
| JsonLexer.KeptPrefixCommaFree | src/adofai/src/parser/BufferParser.ts:107-111 | comma-free prefixes are kept whole |
| JsonLexer.CommaFreeUnchanged | src/adofai/src/parser/BufferParser.ts:107-111 | comma-free input is returned unchanged |
| JsonLexer.ValueFollowsSkips | src/adofai/src/parser/BufferParser.ts:116-123 | white space and backslashes do not decide whether a comma is emitted |
| JsonLexer.CommaBeforeCloserDropped | src/adofai/src/parser/BufferParser.ts:107-115 | a comma followed, after white space, by `]`, `}`, another comma or the end is dropped |
| JsonLexer.CommaInStringDropped | src/adofai/src/parser/BufferParser.ts:107-111 | a comma inside a string is dropped |
| JsonLexer.EscapedByteStaysInString | src/adofai/src/parser/BufferParser.ts:86-88 | the byte after an in-string backslash does not close the string |
| JsonLexer.NoQuoteStates | src/adofai/src/parser/BufferParser.ts:31-41 | input without `"` never enters string state |
| JsonLexer.NoRawNewlineWithout | src/adofai/src/parser/BufferParser.ts:32-63 | input without `"`, or without bytes 10 and 13, has no raw newline in a string |
| JsonLexer.TrailingCommaExample | src/adofai/src/parser/BufferParser.ts:107-115 | `[1,2,]` becomes `[1,2]` |
| JsonLexer.CommaRunExample | src/adofai/src/parser/BufferParser.ts:107-128 | `[1,,2]` becomes `[1,2]` |
| JsonLexer.CommaInStringExample | src/adofai/src/parser/BufferParser.ts:107-111 | `"a,b"` becomes `"ab"` |
| JsonLexer.EscapedQuoteExample | src/adofai/src/parser/BufferParser.ts:23-73 | a newline after `\"` inside a string is detected |
| JsonLexer.StepKeepsInvariant | src/adofai/src/parser/BufferParser.ts:84-132 | each byte keeps the builder's pieces equal to the kept prefix |
| JsonLexer.FinishInvariant | src/adofai/src/parser/BufferParser.ts:133 | the final piece completes the normalised output |
| JsonLexer.SetAt | src/adofai/src/parser/BufferParser.ts:140 | `out.set(piece, offset)` writes exactly the piece at the offset |
| JsonLexer.Concat | src/adofai/src/parser/BufferParser.ts:134-143 | the concatenation loop yields exactly the flattened pieces |
| JsonLexer.PrefixTotal | src/adofai/src/parser/ArrayBufferParser.ts:82-91 | each piece fits after the earlier ones in the total length |
| FormatOld.Spaces | src/adofai/src/structure/formatOld.ts:22 | `' '.repeat(n)` is n spaces |
| FormatOld.Stringify | src/adofai/src/structure/formatOld.ts:9-11 | a primitive's JSON text has no line break |
| FormatOld.QuoteString | src/adofai/src/structure/formatOld.ts:35 | a quoted key is enclosed in quotes and has no line break |
| FormatOld.EscapeOrdinary | src/adofai/src/structure/formatOld.ts:35 | strings without quotes, backslashes or control characters are not escaped |
| FormatOld.ExportAsADOFAI | src/adofai/src/structure/formatOld.ts:7-46 | a primitive is its `JSON.stringify`; an array is bracketed by `[` and `]`, an object by `{` and `}`; the line layout is in PrimitiveArrayOnOneLine, NestedArrayOneLinePerItem, RootObjectOneLinePerKey and NestedObjectCloses |
| FormatOld.FormatAsSingleLine | src/adofai/src/structure/formatOld.ts:52-67 | a primitive is its `JSON.stringify`; arrays and objects keep their brackets; SingleLineHasNoNewline shows it stays on one line |
| FormatOld.PrimitiveArraySingleLineAgrees | src/adofai/src/structure/formatOld.ts:18-20 | an all-primitive array is written exactly as `formatAsSingleLine` writes it |
| FormatOld.NestedLinesLayout | src/adofai/src/structure/formatOld.ts:22-27 | a nested array's text opens `[\n`, has one line break per single-line item plus one, and closes with its indent and `]` |
| FormatOld.RootLinesCount | src/adofai/src/structure/formatOld.ts:33-38 | the root object's text has one line break per single-line entry, plus one |
| FormatOld.SingleLineHasNoNewline | src/adofai/src/structure/formatOld.ts:52-67 | formatAsSingleLine never emits a line break |
| FormatOld.PrimitiveArrayOnOneLine | src/adofai/src/structure/formatOld.ts:14-20 | an all-primitive array is `[` + items joined by `,` + `]` on one line |
| FormatOld.NestedArrayOneLinePerItem | src/adofai/src/structure/formatOld.ts:22-27 | any other array starts `[\n`, has one line per item, and ends with a line break, the indent and `]` |
| FormatOld.RootObjectOneLinePerKey | src/adofai/src/structure/formatOld.ts:33-38 | the root starts `{\n` and ends `\n}`, with one line per key when values are single-line |
| FormatOld.NestedObjectCloses | src/adofai/src/structure/formatOld.ts:41-45 | a nested object starts `{\n` and closes with a line break, its indent and `}` |
| FormatOld.AngleListExample | src/adofai/src/structure/formatOld.ts:14-20 | `[0, 90]` exports as `[0,90]` |

## Left out

- `Level.load`'s parsing: the string and Buffer branches, `BaseParser` and
  `pathData` are not part of this model. `Levels.Level.Load` covers the
  object branch only, without the Promise and the `load` callback.
- The `on`/`trigger`/`off` callback registry, `generateGUID`, `clearEffect`
  (a dynamic preset lookup), and `calculateTilePosition` (trigonometry on
  floating point).
- The string branch of `export`: it calls `./format`, which is not part of
  this model.
- `BufferParser.parse`, `ArrayBufferParser.parse`, `decodeStringFromUTF8BOM`,
  `normalizeJsonBuffer` and the Buffer-unavailable shim. All of them are
  foreign calls: `JSON.parse`, `TextDecoder` and Buffer conversion.
- `clearDecorations`'s throw for a non-array argument. The argument is a
  sequence by type.
- IEEE-754 rounding. Times, tempos and angles are exact reals, and the slack
  `0.000001` is an exact constant.
- The `angle || 0` fallback for a tile (`src/utils/stitcher.ts:55`, `:211`,
  `:229`). `Tile.angle` is optional in `src/adofai/src/structure/interfaces.ts:27`,
  but the `Level` class always sets it, so the model's tile angle is a
  plain `real`.
- Object key order. Events are records with named fields; `JSON.stringify`
  of primitives is modelled by a fixed escaper.
- Timing.CalculatedTiming, Stitcher.Stitched and Stitcher.StitchLevels
  require non-zero tempos. The settings tempo, every SetSpeed Bpm value and
  every multiplier must be non-zero; the source would otherwise divide by
  zero and produce Infinity or NaN.
- Stitcher.Stitched, Stitcher.StitchLevels require a non-negative source
  range start and a target start index below the target's tile count.
  - With an out-of-range target start index, the source throws a TypeError
    in its first `initTileState` call, before any event is copied: it reads
    `.actions` of `undefined`.
  - With a negative source start, `sourceStartTime` is `undefined`, yet the
    range filter still selects events, so every desired time is NaN; NaN
    is not a `real`.
  - A source start at or past the source's tile count is modelled. No
    event passes the range filter (`src/utils/stitcher.ts:133-135`), so the
    undefined start time is never read; the model reads 0 there, and
    `Stitcher.StitchedPastEnd` proves the target comes back unchanged.
- Levels.InsertTile, Levels.AppendTile: appending to an empty level, and
  inserting at an id below 1 or beyond the tile count, throw a TypeError in
  the source. `FloorOperation` and `AppendFloor` report them as `ok == false`
  with no change.
- Stitcher.StitchRunCount: it relates the cursor only to the starting tile.
  It does not compare cursor positions of non-adjacent steps; step by step,
  `Stitcher.StitchStep` states monotonicity.
- Timing.TravelTime is stated as `t * bpm == angle / 3` rather than by the
  literal expression; the two are equal for non-zero tempo (see
  `Timing.TravelScale`).
