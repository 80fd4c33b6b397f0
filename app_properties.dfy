/**
 * What the handlers of `App` promise: the run state machine, the two-phase
 * teleport and its interaction with a reset, and the invariants every
 * handler keeps (timers, one tool per cell, tools within the inventory).
 */
module AppProperties {
  import opened Wrappers
  import opened Seqs
  import opened Types
  import opened Engine
  import opened LevelList
  import opened App
  import Placement
  import Ed = Editor
  import LB = LevelBrowser
  import TP = TilePalette

  /** The application opens in a valid state, on the menu, in SETUP, with nothing scheduled. */
  lemma InitialIsValid(time: string, author: Option<string>)
    ensures var s := Initial(time, author);
      Valid(s) && s.view == Menu && s.status == Setup && s.intervals == 0 && s.pending == []
  {
  }

  /** A reset leaves a valid state: no tools, no selected tool, SETUP, the handle cleared. */
  lemma ResetIsValid(s: AppState)
    requires Sound(s)
    ensures var r := AfterReset(s);
      Valid(r) && r.placedTools == [] && r.status == Setup && !r.held
      && r.intervals == (if s.held then s.intervals - 1 else s.intervals)
  {
    var r := AfterReset(s);
    forall kind: ToolType ensures Placement.UsedCount(r.placedTools, kind) == 0 {
    }
  }

  /** The reset effect restores validity after a change of the level on the board. */
  lemma SettledIsValid(s: AppState, before: Option<Level>)
    requires Sound(s)
    requires s.CurrentLevel() == before && before.Some? ==> Placement.WithinInventory(s.placedTools, before.value.inventory)
    ensures Valid(Settled(s, before))
  {
    if s.CurrentLevel().Some? && s.CurrentLevel() != before {
      ResetIsValid(s);
    }
  }

  /**
   * A tick does nothing unless the status is RUNNING; `play` does something
   * only from SETUP on a level with a start, and then the run starts on the
   * start cell, visible, with no coins, no key and nothing collected, and an
   * interval is started.
   */
  lemma PlayAndTickGuards(s: AppState, now: nat)
    requires TickReadable(s)
    ensures s.status != Running ==> AfterTick(s, now) == s
    ensures var p := AfterPlay(s);
      var ok := s.status == Setup && s.CurrentLevel().Some? && s.CurrentLevel().value.startPosition.x != -1;
      && (!ok ==> p == s)
      && (ok ==> p.status == Running && p.live == Some(InitialSim) && p.sim == InitialSim
                 && p.live.value.collectedCoins == 0 && !p.live.value.hasKey && p.live.value.collectedItems == {}
                 && p.simCollector == Some(p.collector) && p.collector.visible && !p.collector.isTeleporting
                 && p.collector.x == s.CurrentLevel().value.startPosition.x
                 && p.collector.y == s.CurrentLevel().value.startPosition.y
                 && p.collector.direction == s.CurrentLevel().value.startDirection
                 && p.held && p.intervals == s.intervals + 1)
  {
  }

  /** `play` keeps the state valid. */
  lemma PlayIsValid(s: AppState)
    requires Valid(s)
    ensures Valid(AfterPlay(s))
  {
  }

  /** The preconditions of a running tick that commits `Step`'s outcome. */
  predicate Ticking(s: AppState) {
    && s.status == Running && s.simCollector.Some? && s.live.Some? && s.CurrentLevel().Some?
    && |s.CurrentLevel().value.grid| > 0
  }

  function StepOf(s: AppState): StepOutcome
    requires Ticking(s)
  {
    Step(s.CurrentLevel().value, s.placedTools, s.simCollector.value, s.live.value)
  }

  /**
   * A failing tick leaves the Collector where it was, live and shown, sets
   * FAIL, opens the initials prompt and stops the interval.
   */
  lemma FailLeavesCollector(s: AppState, now: nat)
    requires Ticking(s) && StepOf(s).Failed?
    ensures var r := AfterTick(s, now);
      && r.status == Fail && r.initialsOpen && !r.held
      && r.collector == s.collector && r.simCollector == s.simCollector
      && r.live == s.live && r.sim == s.sim && r.pending == s.pending
      && r.placedTools == s.placedTools && r.savedLevels == s.savedLevels
  {
  }

  /**
   * A winning tick moves the Collector onto the end cell with its heading,
   * shows the live counters, sets WIN and stops the interval without
   * resetting the board; the active level gets the best of its high score
   * and the run's coins and keeps or gains a completion time, here and in
   * the saved list.
   */
  lemma WinRecordsLevel(s: AppState, now: nat)
    requires Ticking(s) && StepOf(s).Won?
    ensures var r := AfterTick(s, now);
      var n := Destination(s.simCollector.value);
      && r.status == Win && !r.held
      && r.collector == s.simCollector.value.(x := n.x, y := n.y) && r.simCollector == Some(r.collector)
      && r.sim == s.live.value && r.live == s.live
      && r.placedTools == s.placedTools && r.view == s.view
      && (s.activeLevel.Some? ==>
            && r.activeLevel == Some(WinUpdate(s.activeLevel.value, s.live.value.collectedCoins, now))
            && r.savedLevels == ReplaceByName(s.savedLevels, r.activeLevel.value)
            && r.activeLevel.value.highScore.value >= s.live.value.collectedCoins
            && (now != 0 ==> Completed(r.activeLevel.value)))
      && (s.activeLevel.None? ==> r.activeLevel.None? && r.savedLevels == s.savedLevels)
  {
  }

  /**
   * The teleport pauses and resumes: the tick leaves the Collector on the
   * `in` cell marked as teleporting, stops the interval and schedules the
   * exit; with nothing else scheduled, the resume puts the Collector on the
   * exit cell with the exit's heading, shows the counters of the tick, and
   * restarts ticking: one interval runs again.
   */
  lemma TeleportPausesThenResumes(s: AppState, now: nat)
    requires Ticking(s) && StepOf(s).Teleporting? && Sound(s)
    requires s.pending == [] && s.held
    ensures var t := AfterTick(s, now);
      var exit := StepOf(s).exit;
      && t.status == Running && !t.held && t.intervals == s.intervals - 1
      && t.pending == [exit] && t.collector.isTeleporting && t.collector == t.simCollector.value
      && t.collector.x == Destination(s.simCollector.value).x && t.collector.y == Destination(s.simCollector.value).y
      && t.sim == s.sim
      && var r := AfterResume(t);
        && r.collector.x == exit.x && r.collector.y == exit.y && r.collector.direction == exit.exitDirection
        && !r.collector.isTeleporting && r.simCollector == Some(r.collector)
        && r.sim == t.live.value && r.pending == []
        && r.held && r.intervals == s.intervals
  {
  }

  /**
   * A reset does not cancel a scheduled resume: when it fires it still moves
   * the Collector to the exit and shows the old run's live counters, though
   * the board was reset; only the restart of the interval is guarded, so
   * nothing starts ticking.
   */
  lemma ResetDoesNotCancelResume(s: AppState)
    requires Sound(s) && s.pending != []
    ensures var z := AfterReset(s);
      var r := AfterResume(z);
      && r.collector == Resumed(s.simCollector.value, s.pending[0])
      && r.sim == s.live.value
      && r.status == Setup && r.placedTools == []
      && r.held == z.held && !r.held && r.intervals == z.intervals
      && r.pending == s.pending[1..]
  {
  }

  /**
   * So a test run that teleports, goes back to the editor and is played
   * again before the resume fires ends with two intervals running while the
   * handle refers to only one of them.
   */
  lemma ReplayBeforeResumeLeavesTwoIntervals(s: AppState, now: nat)
    requires Valid(s) && Ticking(s) && StepOf(s).Teleporting?
    requires s.view == Play && s.activeLevel.None? && s.pending == [] && s.held && s.intervals == 1
    requires s.editing.level.startPosition.x != -1
    ensures var t := AfterTick(s, now);
      var e := AfterTestLevel(AfterReturnToEditor(t));
      var p := AfterPlay(e);
      var r := AfterResume(p);
      && e.status == Setup && e.pending == t.pending
      && p.status == Running && p.intervals == 1
      && r.status == Running && r.held && r.intervals == 2
  {
  }

  /** A tick keeps the state valid. */
  lemma TickIsValid(s: AppState, now: nat)
    requires Valid(s) && TickReadable(s)
    ensures Valid(AfterTick(s, now))
  {
    if Ticking(s) {
      var r := AfterTick(s, now);
      match StepOf(s)
      case Won(c) =>
        assert r.CurrentLevel().Some? ==> r.CurrentLevel().value.inventory == s.CurrentLevel().value.inventory;
      case _ =>
    }
  }

  /** A resume keeps the state valid. */
  lemma ResumeIsValid(s: AppState)
    requires Valid(s) && s.pending != []
    ensures Valid(AfterResume(s))
  {
  }

  /**
   * A tile click keeps the state valid: a SETUP click keeps one tool per
   * cell and every kind within the inventory, and an editor click keeps the
   * start on the grid.
   */
  lemma TileClickIsValid(s: AppState, x: int, y: int, exitDirection: Direction, startDirection: Direction)
    requires Valid(s)
    requires s.view == Editor ==> Ed.InGrid(s.editing.level.grid, x, y)
    ensures Valid(AfterTileClick(s, x, y, exitDirection, startDirection))
  {
    if s.view == Play && s.status == Setup {
      var l := s.CurrentLevel().value;
      Placement.ToggleKeepsOnePerCell(s.placedTools, x, y, s.selectedTool, l.inventory);
      Placement.ToggleKeepsWithinInventory(s.placedTools, x, y, s.selectedTool, l.inventory);
    } else if s.view == Editor {
      Ed.ClickKeepsBoard(s.editing, x, y, exitDirection, startDirection);
      SettledIsValid(s.(editing := Ed.Click(s.editing, x, y, exitDirection, startDirection)), s.CurrentLevel());
    }
  }

  /**
   * The saved list, the selected tool, the initials prompt and the palette's
   * selection and sub-state take no part in validity.
   */
  lemma BookkeepingKeepsValid(s: AppState, ls: seq<Level>, t: Option<ToolType>, open: bool,
                              sub: TP.SubState, selection: Option<PaletteSelection>)
    requires Valid(s)
    ensures Valid(s.(savedLevels := ls, selectedTool := t, initialsOpen := open,
                     editing := s.editing.(sub := sub, selection := selection)))
  {
  }

  /** Saving a level keeps the state valid. */
  lemma SaveIsValid(s: AppState)
    requires Valid(s)
    ensures Valid(AfterSave(s))
  {
    if Save(s.savedLevels, s.editing.level, s.sim.collectedCoins).Some? {
      var ls := Save(s.savedLevels, s.editing.level, s.sim.collectedCoins).value;
      ResetIsValid(s.(savedLevels := ls));
      SettledIsValid(AfterReset(s.(savedLevels := ls)).(view := Editor), s.CurrentLevel());
    }
  }

  /** Deleting a level keeps the state valid. */
  lemma DeleteIsValid(s: AppState, level: Level)
    requires Valid(s)
    ensures Valid(AfterDelete(s, level))
  {
    if Delete(s.savedLevels, level).Some? {
      BookkeepingKeepsValid(s, Delete(s.savedLevels, level).value, s.selectedTool, s.initialsOpen, s.editing.sub, s.editing.selection);
    }
  }

  /** Loading a level to play, leaving to the menu and returning to the editor keep the state valid. */
  lemma NavigationIsValid(s: AppState, level: Level)
    requires Valid(s)
    ensures Valid(AfterLoadToPlay(s, level)) && Valid(AfterReturnToMenu(s)) && Valid(AfterReturnToEditor(s))
  {
    ResetIsValid(s);
    SettledIsValid(s.(activeLevel := Some(level), view := Play), s.CurrentLevel());
    SettledIsValid(AfterReset(s).(view := Editor), s.CurrentLevel());
  }

  /** The win modal's next button, opening the editor and testing the level keep the state valid. */
  lemma ModalAndMenuAreValid(s: AppState)
    requires Valid(s)
    ensures Valid(AfterModalNext(s)) && Valid(AfterOpenEditor(s)) && Valid(AfterTestLevel(s))
  {
    if s.view == Play && s.activeLevel.Some? {
      var next := NextLevel(s.savedLevels, s.activeLevel.value.name);
      if next.Some? {
        SettledIsValid(s.(activeLevel := next, view := Play, status := Setup), s.CurrentLevel());
      }
    }
    SettledIsValid(s.(view := Editor), s.CurrentLevel());
    SettledIsValid(s.(activeLevel := None, view := Play), s.CurrentLevel());
  }

  /** The palette's inventory field keeps the state valid. */
  lemma InventoryChangeIsValid(s: AppState, tool: ToolType, amount: int)
    requires Valid(s)
    ensures Valid(AfterInventoryChange(s, tool, amount))
  {
    SettledIsValid(s.(editing := s.editing.(level := TP.InventoryChange(s.editing.level, tool, amount))), s.CurrentLevel());
  }

  /** The palette's buttons, the tool selection and closing the initials modal keep the state valid. */
  lemma SelectionsAreValid(s: AppState, choice: PaletteSelection, t: Option<ToolType>)
    requires Valid(s)
    ensures Valid(AfterTeleporterClick(s)) && Valid(AfterPaletteChoice(s, choice))
    ensures Valid(AfterSelectTool(s, t)) && Valid(AfterCloseInitials(s))
  {
    var r := TP.TeleporterClick(s.editing.sub, s.editing.selection, s.editing.level.teleporters);
    BookkeepingKeepsValid(s, s.savedLevels, s.selectedTool, s.initialsOpen, r.0, r.1);
    BookkeepingKeepsValid(s, s.savedLevels, s.selectedTool, s.initialsOpen, s.editing.sub, TP.Toggle(s.editing.selection, choice));
    BookkeepingKeepsValid(s, s.savedLevels, t, s.initialsOpen, s.editing.sub, s.editing.selection);
    BookkeepingKeepsValid(s, s.savedLevels, s.selectedTool, false, s.editing.sub, s.editing.selection);
  }

  /**
   * The win modal's next button: the level after the active one in the saved
   * list is loaded in SETUP on a fresh board, or ALL_LEVELS_COMPLETE is shown
   * after the last level.
   */
  lemma ModalNextAdvances(s: AppState, i: nat)
    requires Sound(s) && s.view == Play && DistinctNames(s.savedLevels)
    requires i < |s.savedLevels| && s.activeLevel == Some(s.savedLevels[i])
    ensures var r := AfterModalNext(s);
      && (i + 1 < |s.savedLevels| ==>
            && r.activeLevel == Some(s.savedLevels[i + 1]) && r.status == Setup && r.view == Play
            && r.placedTools == [] && r.collector == AtStart(s.savedLevels[i + 1]) && !r.held)
      && (i + 1 == |s.savedLevels| ==> r == s.(status := AllLevelsComplete))
  {
    assert forall j :: 0 <= j < i ==> !Named(s.savedLevels[i].name)(s.savedLevels[j]);
    FirstMatch(s.savedLevels, Named(s.savedLevels[i].name), i);
    assert NextLevel(s.savedLevels, s.activeLevel.value.name)
      == if i + 1 < |s.savedLevels| then Some(s.savedLevels[i + 1]) else None;
    if i + 1 < |s.savedLevels| {
      assert s.savedLevels[i + 1].name != s.savedLevels[i].name;
    }
  }
  /** A played level the saved list does not hold also shows ALL_LEVELS_COMPLETE, as `idx === -1` does. */
  lemma ModalNextUnlistedLevel(s: AppState)
    requires s.view == Play && s.activeLevel.Some?
    requires FindIndex(s.savedLevels, Named(s.activeLevel.value.name)).None?
    ensures AfterModalNext(s) == s.(status := AllLevelsComplete)
    ensures NextLevel(s.savedLevels, s.activeLevel.value.name).None?
  {
  }


  /**
   * Winning level `i` of a list without repeated names (with a non-zero
   * clock reading) and pressing next loads level `i + 1`, which the level
   * browser then shows unlocked.
   */
  lemma WinThenNextIsUnlocked(s: AppState, now: nat, i: nat)
    requires Valid(s) && Ticking(s) && StepOf(s).Won? && now != 0
    requires s.view == Play && DistinctNames(s.savedLevels)
    requires i + 1 < |s.savedLevels| && s.activeLevel == Some(s.savedLevels[i])
    ensures var w := AfterTick(s, now);
      var n := AfterModalNext(w);
      && n.activeLevel == Some(w.savedLevels[i + 1])
      && !LB.Locked(w.savedLevels, i + 1)
      && LB.PlayButton(w.savedLevels, i + 1) == Some(w.savedLevels[i + 1])
  {
    var w := AfterTick(s, now);
    var updated := WinUpdate(s.savedLevels[i], s.live.value.collectedCoins, now);
    assert w.savedLevels == ReplaceByName(s.savedLevels, updated);
    assert w.savedLevels[i] == updated;
    ReplaceByNameFacts(s.savedLevels, updated, "");
    ModalNextAdvances(w, i);
  }

  /**
   * Saving a level with a non-blank name stores it with its coin count and
   * best score under its name, keeps every other name, and returns to the
   * editor on a reset board; a blank name changes nothing.
   */
  lemma SaveStoresLevel(s: AppState, n: string)
    ensures Trim(s.editing.level.name) == "" ==> AfterSave(s) == s
    ensures Trim(s.editing.level.name) != "" ==>
      var r := AfterSave(s);
      && Lookup(r.savedLevels, s.editing.level.name) == Some(ToSave(s.editing.level, s.sim.collectedCoins))
      && (n != s.editing.level.name ==> Lookup(r.savedLevels, n) == Lookup(s.savedLevels, n))
      && r.view == Editor && r.status == Setup && r.placedTools == []
  {
    if Trim(s.editing.level.name) != "" {
      SaveLeavesEditor(s);
      SaveFacts(s.savedLevels, s.editing.level, s.sim.collectedCoins, n);
    }
  }

  /** A save that goes through stores the new list and resets the board into the editor. */
  lemma SaveLeavesEditor(s: AppState)
    requires Save(s.savedLevels, s.editing.level, s.sim.collectedCoins).Some?
    ensures var r := AfterSave(s);
      && r.savedLevels == Save(s.savedLevels, s.editing.level, s.sim.collectedCoins).value
      && r.view == Editor && r.status == Setup && r.placedTools == []
  {
    var ls := Save(s.savedLevels, s.editing.level, s.sim.collectedCoins).value;
    var z := AfterReset(s.(savedLevels := ls)).(view := Editor);
    assert z.savedLevels == ls && z.view == Editor && z.status == Setup && z.placedTools == [];
  }

  /**
   * The start-up merge gives a list without repeated names holding every
   * stored name and every builtin name, with the stored level winning over
   * a builtin of the same name.
   */
  lemma LoadMergesByName(s: AppState, stored: seq<Level>, builtins: seq<Level>, n: string)
    ensures var r := AfterLoad(s, stored, builtins);
      && DistinctNames(r.savedLevels)
      && Names(r.savedLevels) == Names(stored) + Names(builtins)
      && (n in Names(stored) ==> Lookup(r.savedLevels, n) == LastNamed(stored, n))
      && (n !in Names(stored) ==> Lookup(r.savedLevels, n) == Lookup(builtins, n))
  {
    MergedFacts(stored, builtins);
    KeyedFacts(stored);
    LookupFindsNames(Keyed(stored), n);
  }
}
