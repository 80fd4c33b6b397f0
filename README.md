# Logic Reflect — a verified model of the Collector engine and its run controller

Logic Reflect is a grid puzzle. The player places rotators and mirrors on a
board. The Collector then walks the board one cell per tick. It picks up
coins and the key, passes gates it holds the key for, and is carried by
teleporter pairs. It ends on the exit (WIN) or on a wall, an obstacle or a
locked gate (FAIL). Players can also edit levels, save them in a list keyed
by name, and work through twenty builtin levels in order.

This project models that core in Dafny and proves what it promises.

- `types.dfy` — the data model of `types.ts`: headings, tile and tool kinds,
  inventories, teleporters, levels, the Collector and the per-run counters.
  `Cardinal` ("exactly one axis non-zero") is a separate predicate, because
  the `Direction` type admits `(0, 0)` and `(1, 1)`.
- `directions.dfy` — the three exact integer transforms of a heading:
  clockwise, counter-clockwise and mirror.
- `engine.dfy` — `Engine.Step`, one tick of the Collector as a function.
  The checks run in the program's order: bounds, obstacle, locked gate, end,
  pickup, teleport, placed tool, force tile. `Engine.Advance` is the tick as
  the program computes it, reassigning the next cell and heading step by
  step. It is proved equal to `Step`. `EngineProperties` proves what a tick
  promises.
- `placement.dfy` — the placed-tool toggle of a SETUP board.
- `levels.dfy` — `levels.ts`: an `array2` grid with `MakeGrid` and `Place`,
  the twenty level builders `Fase1` … `Fase20`, and `BuiltinLevels`. The
  structural invariants of every builtin level are proved.
- `level_list.dfy` — the list of saved levels: the start-up merge by name,
  save (replace by name), delete (builtin levels refused), the win update
  and the blank editor level.
- `editor.dfy` — a click on an editor cell. It clears the cell's records,
  places the next end of a teleporter pair, or paints a tile, the start or a
  force tile.
- `tile_palette.dfy`, `level_browser.dfy`, `ranking_modal.dfy`,
  `initials_modal.dfy`, `intro_cinematic.dfy` — the small state machines of
  those components.
- `app.dfy` — `App.Game`, a class whose fields are the application's state
  and whose methods are its handlers. Each method updates the fields in
  place. It is proved against a function on a snapshot of the fields
  (`AppState`): `ensures State() == AfterX(old(State()), …)`.
  `app_properties.dfy` proves what those functions promise: the run state
  machine SETUP → RUNNING → WIN/FAIL → next level or ALL_LEVELS_COMPLETE,
  the two-phase teleport, and the invariants every handler keeps.

Time is explicit. `GameTick` is one firing of the game interval.
`ResumeTeleport` is the delayed second half of a teleport. The running
intervals are counted, and `held` says whether the interval handle refers to
one of them. Scheduled resumes are a queue of exits. Clock readings (the win
timestamp, the blank level's time of day) and the directions the direction
prompt returns are parameters.

The board keeps two copies of the run, as the program does:

- the live Collector and counters, which the ticks update;
- the Collector and counters the board shows, which a reset sets back.

The reset effect, which runs when the level on the board changes, is
modelled as `Settled`. It resets when the level on the board differs, as a
value, from the one before the handler.

A reset does not cancel a pending teleport resume: `resetBoard` (App.tsx:131-147) clears only the game interval, not
the timeout. So a scheduled resume still moves the Collector to the exit
after a reset. `AppProperties.ResetDoesNotCancelResume` states this. It also
shows that only the interval restart is guarded. `AppProperties.ReplayBeforeResumeLeavesTwoIntervals`
shows the consequence: a test run that teleports, returns to the editor and
is played again before the resume fires ends with two game intervals
running, while the handle refers to only one of them.

## Model

| member | source | states |
|---|---|---|
| `Types.Inventory.With` | types.ts:15 | setting one tool's count gives that count and leaves the other two kinds unchanged |
| `Types.EnumerationsAreExhaustive` | types.ts:3-57 | there are exactly eight tile kinds, three tool kinds and five game statuses |
| `Types.CardinalIsCompassPoint` | types.ts:1 | a heading is cardinal exactly when it is one of the four compass unit vectors |
| `Types.DirectionTypeAdmitsNonCardinal` | types.ts:1 | the heading type admits `(0,0)` and `(1,1)`, which are not cardinal |
| `Directions.RotateCw` | App.tsx:251 | maps a cardinal heading to the next compass point clockwise |
| `Directions.RotateCcw` | App.tsx:252 | maps a cardinal heading to the next compass point counter-clockwise |
| `Directions.Reverse` | App.tsx:253 | maps a cardinal heading to the opposite compass point |
| `Directions.Apply` | App.tsx:250-253 | every tool transform keeps a heading cardinal |
| `Directions.RotationsAreMutualInverses` | App.tsx:251-252 | clockwise and counter-clockwise rotation undo each other |
| `Directions.FourQuarterTurnsAreIdentity` | App.tsx:251-252 | four quarter turns in either sense give back the heading |
| `Directions.ReverseIsHalfTurn` | App.tsx:253 | the mirror is an involution and equals two quarter turns in either sense |
| `Directions.TransformsCommute` | App.tsx:249-260 | tool and force-tile transforms commute |
| `Directions.TransformsMove` | App.tsx:251-253 | no transform leaves a cardinal heading unchanged |
| `Seqs.FindIndex` | App.tsx:288 | the index found is the first element that satisfies the predicate; none means no element does |
| `Seqs.Find` | App.tsx:224 | the element found is the first that satisfies the predicate; none exactly when no element does |
| `Seqs.Filter` | App.tsx:290 | keeps exactly the elements that satisfy the predicate, and everything when all do |
| `Seqs.Count` | App.tsx:292 | counts the elements that satisfy the predicate; zero exactly when none does |
| `Seqs.RemoveAt` | App.tsx:290 | drops index `i` and keeps every other element in order |
| `Engine.Pickup` | App.tsx:210-220 | an uncollected coin adds one coin and records the cell; an uncollected key sets `hasKey` and records the cell; a collected cell or any other tile changes nothing |
| `Engine.TeleportExit` | App.tsx:222-225 | an exit found is an `out` record of the level |
| `Engine.Deflect` | App.tsx:249-261 | keeps a heading cardinal, and leaves it unchanged on a cell with no tool and no force tile |
| `Engine.Advance` | App.tsx:177-266 | the imperative tick computes exactly the outcome of `Step` |
| `Engine.Collect` | App.tsx:210-220 | the in-place pickup computes exactly `Pickup` |
| `Engine.Turn` | App.tsx:249-261 | the step-by-step deflection computes exactly `Deflect`, the tool first |
| `Engine.Resumed` | App.tsx:231-237 | the resumed Collector is no longer teleporting and keeps its visibility |
| `EngineProperties.FailsExactly` | App.tsx:196-200 | a tick fails exactly when the destination is outside the grid, an obstacle, or a gate without the key |
| `EngineProperties.GateWithKeyPasses` | App.tsx:200 | with the key, a gate does not fail and the key is kept |
| `EngineProperties.WinsExactlyOnEnd` | App.tsx:202-208 | entering the end tile wins with the heading unchanged and no pickup, teleport or deflection; a win happens only there |
| `EngineProperties.PickupIdempotent` | App.tsx:210-220 | picking up a cell twice is picking it up once; a collected cell changes nothing |
| `EngineProperties.CountersOnlyGrow` | App.tsx:210-220 | over a tick coins never decrease and grow by at most one, the key is never lost, collected cells stay collected |
| `EngineProperties.NoTeleporterNoExit` | App.tsx:222-223 | a cell with no teleporter record never teleports |
| `EngineProperties.FirstRecordOnCellDecides` | App.tsx:222-225 | the first record on the cell decides: `out` gives no teleport; `in` teleports exactly when its pair has an `out` record |
| `EngineProperties.PairedInLeadsToFirstExit` | App.tsx:222-225 | an `in` record leads to the first `out` record of its pair |
| `EngineProperties.TeleportIsTwoPhase` | App.tsx:222-247 | a teleporting tick leaves the Collector on the `in` cell, marked teleporting, heading unchanged; the resume puts it on the exit with the exit's heading |
| `EngineProperties.PlainStepDeflects` | App.tsx:249-265 | on a cell without a paired `in` record the Collector moves there and heads `force(tool(d))` |
| `EngineProperties.StepKeepsCardinal` | App.tsx:249-261 | a cardinal heading stays cardinal through a tick and through the teleport resume |
| `EngineProperties.InExitDirectionUnused` | App.tsx:231-234 | the exit direction stored on an `in` record never changes a tick |
| `EngineProperties.InExitKeepsTeleportExit` | App.tsx:224-225 | changing an `in` record's exit direction keeps the exit of every cell |
| `Placement.Toggle` | App.tsx:286-296 | an occupied cell loses exactly its tool; otherwise the selected tool is added only while its kind is below the inventory |
| `Placement.ToggleKeepsOnePerCell` | App.tsx:286-296 | the toggle keeps at most one tool per cell |
| `Placement.ToggleKeepsWithinInventory` | App.tsx:291-294 | the toggle keeps every kind within its inventory count |
| `Placement.ToggleClearsOccupiedCell` | App.tsx:288-290 | clicking an occupied cell leaves no tool on it |
| `Placement.PlaceThenRemoveRestores` | App.tsx:286-296 | placing a tool on a free cell and clicking it again restores the tools |
| `Levels.EmptyGrid` | levels.ts:5-7 | a 10×10 grid of empty cells |
| `Levels.MakeGrid` | levels.ts:5-7 | allocates a fresh 10×10 array of empty cells |
| `Levels.Place` | levels.ts:9-11 | changes cell `(x, y)` and no other cell |
| `Levels.CoinsCountIsCoinCells` | levels.ts:13-15 | the coin count of the flattened grid equals the number of coin cells |
| `Levels.ZigzagCellsAreCoinCells` | levels.ts:476-477 | the two loops of level 19 place coins on exactly the eight zigzag cells |
| `Levels.ZigzagCoinsCount` | levels.ts:476-477 | level 19 holds eight coins |
| `Levels.OnePairPaired` | levels.ts:254-255 | a single pair on distinct cells is one `in` and one `out` record, alone on its cells |
| `Levels.TwoPairsPaired` | levels.ts:142-145 | two pairs on distinct cells are each one `in` and one `out` record, alone on their cells |
| `Levels.OnTeleporterCellsOfTwo` | levels.ts:134-137 | two records on teleporter cells satisfy the on-teleporter-cell invariant |
| `Levels.OnTeleporterCellsOfFour` | levels.ts:134-137 | four records on teleporter cells satisfy the on-teleporter-cell invariant |
| `Levels.FaseNamesDistinct` | levels.ts:19-519 | the twenty builtin names are pairwise distinct |
| `Levels.Fase1` | levels.ts:23-40 | level 1 has the builtin shape and its name |
| `Levels.Fase2` | levels.ts:43-60 | level 2 has the builtin shape and its name |
| `Levels.Fase3` | levels.ts:63-80 | level 3 has the builtin shape and its name |
| `Levels.Fase4` | levels.ts:83-104 | level 4 has the builtin shape and its name |
| `Levels.Fase5` | levels.ts:107-127 | level 5 has the builtin shape and its name |
| `Levels.Fase6` | levels.ts:130-157 | level 6 has the builtin shape (two teleporter pairs) and its name |
| `Levels.Fase7` | levels.ts:160-182 | level 7 has the builtin shape and its name |
| `Levels.Fase8` | levels.ts:185-215 | level 8 has the builtin shape (two teleporter pairs) and its name |
| `Levels.Fase9` | levels.ts:218-238 | level 9 has the builtin shape and its name |
| `Levels.Fase10` | levels.ts:241-268 | level 10 has the builtin shape (one teleporter pair) and its name |
| `Levels.Fase11` | levels.ts:271-297 | level 11 has the builtin shape (two teleporter pairs) and its name |
| `Levels.Fase12` | levels.ts:300-321 | level 12 has the builtin shape and its name |
| `Levels.Fase13` | levels.ts:324-348 | level 13 has the builtin shape and its name |
| `Levels.Fase14` | levels.ts:351-370 | level 14 has the builtin shape and its name |
| `Levels.Fase15` | levels.ts:373-398 | level 15 has the builtin shape (two teleporter pairs) and its name |
| `Levels.Fase16` | levels.ts:401-421 | level 16 has the builtin shape, its name, and obstacle walls on column 5 and row 5 for indices 1 to 8 |
| `Levels.Fase17` | levels.ts:424-442 | level 17 has the builtin shape and its name |
| `Levels.Fase18` | levels.ts:445-469 | level 18 has the builtin shape (two teleporter pairs) and its name |
| `Levels.Fase19` | levels.ts:472-489 | level 19 has the builtin shape, its name, coins exactly on the zigzag cells, and a coin total of 8 |
| `Levels.Fase20` | levels.ts:492-519 | level 20 has the builtin shape (one teleporter pair) and its name |
| `Levels.Fase` | levels.ts:19-519 | builtin level `k` has the builtin shape and the `k`-th name |
| `Levels.PushKeepsPrefix` | levels.ts:521 | marking the next level builtin by the team and appending it keeps the list a builtin prefix |
| `Levels.NamedInOrderDistinct` | levels.ts:19-519 | levels named in builtin order have distinct names |
| `Levels.BuiltinLevels` | levels.ts:19-522 | twenty levels with distinct names, each with start on a `start` cell, cardinal headings, paired teleporters on teleporter cells, force tiles on the grid, `totalCoins` equal to its coin count, origin builtin and author `Equipe` |
| `Levels.BuiltinTeleportersConnect` | levels.ts:130-157 | in a builtin level every `in` record teleports to an `out` record of its pair, and no `out` cell teleports |
| `LevelList.LookupIs` | App.tsx:103 | in a list without repeated names, looking up a name gives the level of that name, or nothing when no level has it |
| `LevelList.LookupFindsNames` | App.tsx:103 | a lookup by name succeeds exactly for the names in the list |
| `LevelList.MergeLevels` | App.tsx:101-106 | the in-place map building computes exactly `Merged` |
| `LevelList.PutFacts` | App.tsx:103 | setting a new name adds it, keeps names distinct, and changes no other lookup |
| `LevelList.PutExistingFacts` | App.tsx:103 | overwriting a name keeps names distinct and changes no other lookup |
| `LevelList.KeyedFacts` | App.tsx:103 | keying the stored list gives distinct names, the same names, and the last stored level of each name |
| `LevelList.PutAllAbsentShape` | App.tsx:104-106 | adding the missing builtins keeps names distinct and keeps the stored prefix |
| `LevelList.PutAllAbsentNames` | App.tsx:104-106 | adding the missing builtins gives the union of the names |
| `LevelList.PutAllAbsentLookup` | App.tsx:104-106 | a name already present keeps its level; otherwise the builtin of that name is found |
| `LevelList.MergedFacts` | App.tsx:101-106 | the merge has distinct names, all stored and builtin names, stored levels first, and a stored level wins over a builtin of the same name |
| `LevelList.KeyedOfDistinct` | App.tsx:103 | keying a list without repeated names gives it back unchanged |
| `LevelList.PutAllAbsentPresent` | App.tsx:104-106 | adding builtins whose names are all present changes nothing |
| `LevelList.MergeIsIdempotent` | App.tsx:101-106 | merging the merged list with the builtins again changes nothing |
| `LevelList.TrimStart` | App.tsx:358 | removes exactly the leading JavaScript white space |
| `LevelList.TrimEnd` | App.tsx:358 | removes exactly the trailing JavaScript white space |
| `LevelList.TrimsToEmpty` | App.tsx:358 | a name trims to empty exactly when it is all white space |
| `LevelList.ToSave` | App.tsx:359-361 | the saved level counts its coin cells and keeps the larger of its high score and the run's coins; nothing else changes |
| `LevelList.Save` | App.tsx:357-364 | a blank name is refused; otherwise the list is the old one without the entries of that name, in their order, followed by the level to save |
| `LevelList.SaveFacts` | App.tsx:363 | after a save the name finds the saved level, other names keep their levels, the names gain the saved one, distinct names stay distinct |
| `LevelList.FilterKeepsDistinct` | App.tsx:363 | filtering a list without repeated names keeps its names distinct |
| `LevelList.SaveIsIdempotent` | App.tsx:363 | saving the same level twice is saving it once |
| `LevelList.Delete` | App.tsx:373-381 | refused exactly for a builtin level; otherwise the list is the old one without the entries of that name, in their order |
| `LevelList.DeleteKeepsOthers` | App.tsx:378 | deleting keeps the lookup of every other name |
| `LevelList.DeleteNeverRemovesBuiltin` | App.tsx:374-378 | a delete that goes through never removes a builtin level |
| `LevelList.WinUpdate` | App.tsx:163-167 | the high score becomes the larger of the old one and the run's coins; a completion time is kept once set, and set to the clock otherwise |
| `LevelList.WinStampIsPermanent` | App.tsx:167 | once completed, later wins keep the completion time and never lower the high score |
| `LevelList.ReplaceByName` | App.tsx:170 | replacing by name keeps the length of the list |
| `LevelList.ReplaceByNameFacts` | App.tsx:170 | replacing by name keeps the names, finds the updated level under its name, keeps other lookups and distinctness, and changes nothing for an absent name |
| `LevelList.ReplaceKeepsNames` | App.tsx:170 | replacing by name keeps the names and distinctness, and changes nothing for an absent name |
| `LevelList.ReplaceFindsUpdated` | App.tsx:170 | after replacing, the name finds the updated level |
| `LevelList.ReplaceKeepsOtherLookups` | App.tsx:170 | replacing keeps the lookup of every other name |
| `LevelList.CreateBlankLevel` | App.tsx:24-37 | a 10×10 empty grid with no start, one tool of each kind, no records, no coins, not completed, a user level by the stored author or a default |
| `TilePalette.InventoryChange` | components/TilePalette.tsx:40-43 | the tool's count becomes `max(0, amount)`; other counts and level fields are kept |
| `TilePalette.InventoryChangesCompose` | components/TilePalette.tsx:40-43 | two changes of one tool keep the last; changes of different tools commute |
| `TilePalette.InventoryEquality` | types.ts:15 | inventories with equal counts for all three kinds are equal |
| `TilePalette.TeleporterClick` | components/TilePalette.tsx:45-53 | an active placement is cancelled; otherwise one starts at stage `in` with pair id half the record count, and the selection is cleared |
| `TilePalette.TeleporterClickTwiceCancels` | components/TilePalette.tsx:45-53 | starting and then cancelling a placement restores the sub-state with no selection |
| `TilePalette.Toggle` | components/TilePalette.tsx:80 | choosing the selected item clears the selection; choosing another selects it |
| `TilePalette.ToggleTwice` | components/TilePalette.tsx:105 | from no selection or this choice, choosing twice gives back the selection |
| `TilePalette.SelectForceAction` | components/TilePalette.tsx:111-112 | sets the force-tile action and keeps the pair placement |
| `Editor.SetCell` | App.tsx:311 | writes one cell of a copied grid and keeps its shape |
| `Editor.ClickCell` | App.tsx:297-354 | the imperative editor click computes exactly `Click` |
| `Editor.PaintGrid` | App.tsx:298-338 | the in-place grid writes of a click compute exactly `ClickGrid` |
| `Editor.GridsEqual` | App.tsx:298 | grids of the same shape with equal cells are equal |
| `Editor.ClickKeepsBoard` | App.tsx:297-354 | a click keeps the grid's shape and the start on it, keeps a start on its `start` cell, and changes only the clicked cell and an old start cell, which becomes empty |
| `Editor.ClickClearsRecords` | App.tsx:303-304 | afterwards the clicked cell holds only the record the click added, and records on other cells are kept |
| `Editor.PairPlacementCompletes` | App.tsx:307-331 | the palette button and two clicks run the stage `in` → `out` → none and add exactly one `in` and one `out` record with the same pair id |
| `LevelBrowser.PlayButton` | components/LevelBrowser.tsx:18-34 | play is offered exactly for the first level or one whose predecessor is completed, and then for that level |
| `LevelBrowser.WinUnlocksNext` | App.tsx:163-171 | winning a level unlocks the next one, and a later win keeps it unlocked |
| `LevelBrowser.WinNeverLocks` | components/LevelBrowser.tsx:18 | a win never locks a level that was unlocked |
| `RankingModal.Insert` | components/RankingModal.tsx:13 | inserting adds exactly the entry |
| `RankingModal.InsertKeepsOrder` | components/RankingModal.tsx:13 | inserting into a list sorted by score keeps it sorted |
| `RankingModal.SortByScore` | components/RankingModal.tsx:13 | the sort is a permutation, non-increasing by score |
| `RankingModal.Displayed` | components/RankingModal.tsx:11-13 | nothing when closed; otherwise at most ten entries, sorted by score, taken from the entries, exactly `min(10, n)` of them |
| `RankingModal.InsertIsStable` | components/RankingModal.tsx:13 | an inserted entry goes after the entries of equal score |
| `RankingModal.SortIsStable` | components/RankingModal.tsx:13 | entries of equal score keep their input order |
| `RankingModal.TopKeepsBest` | components/RankingModal.tsx:13 | in a sorted list, an entry cut off scores no higher than any entry kept |
| `RankingModal.DisplayedAreTheBest` | components/RankingModal.tsx:13 | the open modal shows the best scores, and among equal scores the first ones in input order |
| `InitialsModal.Left` | components/InitialsModal.tsx:23 | the active slot becomes `max(0, i-1)`; the letters are kept |
| `InitialsModal.Right` | components/InitialsModal.tsx:24 | the active slot becomes `min(2, i+1)`; the letters are kept |
| `InitialsModal.Up` | components/InitialsModal.tsx:25 | the targeted slot's letter becomes (c+1) mod 26, so Z turns to A; the other slots and the active slot are kept |
| `InitialsModal.Down` | components/InitialsModal.tsx:26 | the targeted slot's letter becomes (c-1+26) mod 26, so A turns to Z; the other slots and the active slot are kept |
| `InitialsModal.Initials` | components/InitialsModal.tsx:35 | the initials are three letters from A to Z |
| `InitialsModal.AlphabetIsAToZ` | components/InitialsModal.tsx:10 | the alphabet is the 26 letters A to Z in order |
| `InitialsModal.InitialsRoundTrip` | components/InitialsModal.tsx:35 | reading the initials back as indices gives the wheel positions |
| `InitialsModal.MovesKeepValid` | components/InitialsModal.tsx:23-26 | every move keeps three indices in `[0, 26)` and the active slot in `[0, 2]` |
| `InitialsModal.UpDownCancel` | components/InitialsModal.tsx:25-26 | up then down, or down then up, on a slot restores the wheels |
| `InitialsModal.UpsTurn` | components/InitialsModal.tsx:25 | `n` ups advance the slot by `n` mod 26 and change nothing else |
| `InitialsModal.FullTurn` | components/InitialsModal.tsx:25 | 26 ups return to the start |
| `InitialsModal.OnKey` | components/InitialsModal.tsx:19-29 | a closed modal ignores keys; on an open one Enter saves the initials, Escape cancels, the arrows apply Left, Right, Up or Down to the active slot and any other key changes nothing; the wheels stay valid and the saved letters read back as the wheel positions |
| `InitialsModal.InitialState` | components/InitialsModal.tsx:13-14 | the wheels start valid, and Enter there saves `AAA` |
| `IntroCinematic.Open` | components/IntroCinematic.tsx:85-88 | opening shows the first scene |
| `IntroCinematic.Advance` | components/IntroCinematic.tsx:75-82 | below the second-to-last scene the step grows by one; there it closes and keeps the step |
| `IntroCinematic.OnKey` | components/IntroCinematic.tsx:93-98 | a closed intro ignores keys; on an open one Enter and Space advance, Escape closes keeping the step and any other key changes nothing; the step grows by at most one |
| `IntroCinematic.RunStaysInRange` | components/IntroCinematic.tsx:75-82 | from a step in range, any key sequence keeps the step between 0 and the second-to-last scene |
| `IntroCinematic.LastSceneUnreachable` | components/IntroCinematic.tsx:75-82 | after opening, no key sequence shows the last scene |
| `IntroCinematic.AdvancingCloses` | components/IntroCinematic.tsx:75-82 | three advances reach the second-to-last scene; a fourth closes the intro there |
| `App.NextLevel` | App.tsx:386-387 | there is a next level exactly when the named level is found before the last index, and it is the one after it |
| `App.Game.constructor` | App.tsx:36-93 | the application opens on the menu in SETUP with a blank editor level and no timers |
| `App.Game.LoadLevels` | App.tsx:99-110 | the saved list becomes the merge of the stored levels with the twenty builtin levels |
| `App.Game.StopTicking` | App.tsx:132-133 | clearing the handle stops the interval it refers to |
| `App.Game.StartTicking` | App.tsx:283 | a new interval runs and the handle refers to it |
| `App.Game.ResetBoard` | App.tsx:131-147 | the state becomes `AfterReset` of the old one |
| `App.Game.Settle` | App.tsx:149-157 | the state becomes `Settled` of the old one |
| `App.Game.HandlePlay` | App.tsx:268-284 | the state becomes `AfterPlay` of the old one |
| `App.Game.CheckFail` | App.tsx:186-193 | the state becomes `AfterFail` of the old one |
| `App.Game.HandleWin` | App.tsx:159-175 | the state becomes `AfterWin` of the old one |
| `App.Game.GameTick` | App.tsx:177-266 | the state becomes `AfterTick` of the old one, which commits `Step` |
| `App.Game.Commit` | App.tsx:202-265 | the state becomes the tick outcome committed to the old one |
| `App.Game.ResumeTeleport` | App.tsx:231-244 | the state becomes `AfterResume` of the old one |
| `App.Game.HandleTileClick` | App.tsx:286-354 | the state becomes `AfterTileClick` of the old one |
| `App.Game.HandleSaveLevel` | App.tsx:357-370 | the state becomes `AfterSave` of the old one |
| `App.Game.HandleDeleteLevel` | App.tsx:373-381 | the state becomes `AfterDelete` of the old one |
| `App.Game.HandleLoadLevelToPlay` | App.tsx:372 | the state becomes `AfterLoadToPlay` of the old one |
| `App.Game.HandleReturnToMenu` | App.tsx:382 | the state becomes `AfterReturnToMenu` of the old one |
| `App.Game.HandleReturnToEditor` | App.tsx:383 | the state becomes `AfterReturnToEditor` of the old one |
| `App.Game.HandleModalNext` | App.tsx:384-398 | the state becomes `AfterModalNext` of the old one |
| `App.Game.OpenEditor` | App.tsx:447 | the state becomes `AfterOpenEditor` of the old one |
| `App.Game.TestLevel` | App.tsx:478 | the state becomes `AfterTestLevel` of the old one |
| `App.Game.SelectTool` | App.tsx:485 | only the selected tool changes |
| `App.Game.CloseInitials` | App.tsx:519 | only the initials prompt closes |
| `App.Game.HandleInventoryChange` | App.tsx:470-472 | the editor's level gets the palette's inventory change, then the reset effect runs |
| `App.Game.HandleTeleporterClick` | App.tsx:475-476 | the editor's sub-state and selection follow the palette's teleporter button |
| `App.Game.PaletteChoice` | App.tsx:473-474 | the editor's selection follows the palette's toggle |
| `AppProperties.InitialIsValid` | App.tsx:36-93 | the opening state is valid, on the menu, in SETUP, with no interval and nothing scheduled |
| `AppProperties.ResetIsValid` | App.tsx:131-147 | a reset is valid, with no tools, SETUP, the handle cleared and its interval stopped |
| `AppProperties.SettledIsValid` | App.tsx:149-157 | the reset effect restores validity after the level on the board changes |
| `AppProperties.PlayAndTickGuards` | App.tsx:268-284 | a tick does nothing unless RUNNING; play acts only from SETUP on a level with a start, and then starts there, visible, with no coins, no key and nothing collected, and starts one interval |
| `AppProperties.PlayIsValid` | App.tsx:268-284 | play keeps the state valid |
| `AppProperties.FailLeavesCollector` | App.tsx:186-200 | a failing tick keeps the Collector and counters, sets FAIL, opens the initials prompt and stops the interval |
| `AppProperties.WinRecordsLevel` | App.tsx:202-208 | a winning tick puts the Collector on the end, sets WIN, stops the interval, and records the high score and completion time in the active level and the saved list |
| `AppProperties.TeleportPausesThenResumes` | App.tsx:222-247 | the tick pauses on the `in` cell and stops ticking; the resume puts the Collector on the exit with its heading, shows the tick's counters and restarts one interval |
| `AppProperties.ResetDoesNotCancelResume` | App.tsx:231-244 | after a reset a scheduled resume still moves the Collector to the exit and shows the old run's counters, but starts no interval |
| `AppProperties.ReplayBeforeResumeLeavesTwoIntervals` | App.tsx:231-244 | teleport, return to the editor, test and play again before the resume: two intervals run while the handle refers to one |
| `AppProperties.TickIsValid` | App.tsx:177-266 | a tick keeps the state valid |
| `AppProperties.ResumeIsValid` | App.tsx:231-244 | a resume keeps the state valid |
| `AppProperties.TileClickIsValid` | App.tsx:286-354 | a tile click keeps one tool per cell, every kind within the inventory, and the editor's start on its grid |
| `AppProperties.SaveIsValid` | App.tsx:357-370 | saving keeps the state valid |
| `AppProperties.DeleteIsValid` | App.tsx:373-381 | deleting keeps the state valid |
| `AppProperties.NavigationIsValid` | App.tsx:372-383 | loading a level, leaving to the menu and returning to the editor keep the state valid |
| `AppProperties.ModalAndMenuAreValid` | App.tsx:384-398 | the next button, opening the editor and testing keep the state valid |
| `AppProperties.InventoryChangeIsValid` | App.tsx:470-472 | the palette's inventory change keeps the state valid |
| `AppProperties.SelectionsAreValid` | App.tsx:473-485 | palette buttons, tool selection and closing the initials prompt keep the state valid |
| `AppProperties.ModalNextAdvances` | App.tsx:384-398 | next loads the following level in SETUP on a reset board, or shows ALL_LEVELS_COMPLETE after the last level |
| `AppProperties.ModalNextUnlistedLevel` | App.tsx:385-393 | next on a played level the saved list does not hold shows ALL_LEVELS_COMPLETE and changes nothing else |
| `AppProperties.WinThenNextIsUnlocked` | App.tsx:159-175 | winning level `i` and pressing next loads level `i + 1`, which the browser shows unlocked |
| `AppProperties.SaveStoresLevel` | App.tsx:357-370 | a blank name changes nothing; otherwise the level is stored under its name with its coins and best score, other names keep their levels, and the board resets into the editor |
| `AppProperties.SaveLeavesEditor` | App.tsx:357-370 | a save that goes through stores the new list and resets the board into the editor |
| `AppProperties.LoadMergesByName` | App.tsx:99-110 | the start-up merge has distinct names, all stored and builtin names, and a stored level wins over a builtin of the same name |

## Left out

- Real time: `setInterval`, the 500 ms `setTimeout` and the tick speed are not modelled. Ticks and teleport resumes are explicit method calls. The tick-speed constant lives in a module that is not part of this model.
- React mechanics: effect dependencies and `skipNextResetRef` are not modelled. The reset effect is `Settled`, which compares the level on the board before and after each handler as a value. Stale closures of the interval callback are not modelled: a tick always reads the current state.
- Aliasing of the shown counters: a moving tick shows a shallow `{...live}` copy, which still shares the `collectedItems` set with the live object, and a winning tick and `handlePlay` (App.tsx:281) show the live object itself. The pickup adds to that shared set in place (App.tsx:211-219), and a tick that picks something up stands on a coin or key cell. That cell is never an entry teleporter's cell, since the editor writes a `teleporter` tile where it places one (App.tsx:311) and the builtin levels place theirs on such cells, so the tick always ends by showing a fresh copy (App.tsx:265). So no level the program builds can observe the sharing, and the model shows a value in every case.
- App.Game.HandleDeleteLevel: `handleDeleteLevel` (App.tsx:373-381) has no caller in App.tsx, so this handler models code the application never reaches.
- Persistence and network: `localStorage`, the ranking `fetch`, `saveRankingEntry` (network and audio) and `alert` are not modelled. Stored levels are a parameter of `App.Game.LoadLevels`; the stored author is a parameter of `LevelList.CreateBlankLevel`.
- Clock readings: `Date.now()` and `toLocaleTimeString()` are parameters (`now`, `time`).
- The direction prompt: the exit and start directions it returns later are parameters of the editor click.
- The NaN that `parseInt` can pass to the inventory field: the amount is an integer.
- Clearing the editor grid, the start screen, the story modal, the community browser, the music player, the settings, and the purely presentational components are not modelled.
- Hover states, animation keys and `preventDefault` in the initials and intro components are not modelled.
- `App.Game.GameTick`: requires that the level on the board has at least one row while running. The program reads `grid[0].length` and would throw on an empty grid; every level it can build has ten rows.
- `Engine.Resumed`: states only that the Collector stops teleporting and keeps its visibility. Where it lands is stated by `EngineProperties.TeleportIsTwoPhase` and `AppProperties.TeleportPausesThenResumes`.
- `Engine.TeleportExit`: its own contract states only that an exit is an `out` record of the level. Which record is chosen is stated by `EngineProperties.FirstRecordOnCellDecides` and `EngineProperties.PairedInLeadsToFirstExit`.
- `LevelList.ReplaceByName`: its own contract states only the length. The names and lookups are stated by `LevelList.ReplaceByNameFacts`.
- `RankingModal.Insert`: its own contract states only the multiset of entries. Order and stability are stated by `RankingModal.InsertKeepsOrder` and `RankingModal.InsertIsStable`.
- `App.Game.constructor`, `App.Game.LoadLevels` and the other `App.Game` methods state their new state as a function of the old one. What those functions promise is proved in `AppProperties`.
