/**
 * The application's run controller: the views, the level lists, the board
 * of the level being played or edited, and the Collector run on it.
 *
 * Each handler is a method of `Game` that updates its fields in place and is
 * proved against a function on a snapshot of those fields (`AppState`): the
 * method's `ensures` says that the new snapshot is that function of the old
 * one, and `AppProperties` proves what the functions promise.
 *
 * Time is explicit: `GameTick` is one firing of the game interval, and
 * `ResumeTeleport` is the delayed second half of a teleport. `intervals`
 * counts the game intervals that are running and `held` says whether the
 * interval handle refers to one of them (only that one can be cleared);
 * `pending` lists the exits of scheduled teleport resumes, oldest first.
 *
 * The board keeps two copies of the run, as the program does: the live
 * Collector and counters the ticks update (`simCollector`, `live`), and the
 * copies the board shows (`collector`, `sim`), which a reset sets back
 * while the live ones keep their values.
 */
module App {
  import opened Wrappers
  import opened Seqs
  import opened Types
  import opened Directions
  import opened Engine
  import opened LevelList
  import Placement
  import Levels
  import TP = TilePalette
  import Ed = Editor

  /** `initialSimState()`: no coins, no key, nothing collected. */
  const InitialSim := SimulationState(0, false, {})

  /** A snapshot of the application's state. */
  datatype AppState = AppState(
    view: AppView,
    savedLevels: seq<Level>,
    editing: Ed.Editing,                  // the editor's level, palette selection and sub-state
    activeLevel: Option<Level>,
    status: GameStatus,
    placedTools: seq<PlacedTool>,
    selectedTool: Option<ToolType>,
    collector: CollectorState,            // the Collector the board shows
    sim: SimulationState,                 // the counters the board shows
    simCollector: Option<CollectorState>, // the live Collector the ticks move
    live: Option<SimulationState>,        // the live counters the ticks update
    initialsOpen: bool,
    held: bool,                           // the interval handle refers to a running interval
    intervals: int,                       // running game intervals
    pending: seq<Teleporter>)             // exits of scheduled teleport resumes, oldest first
  {
    /** The level on the board: the editor's in the editor and in a test run, otherwise the active one. */
    function CurrentLevel(): Option<Level> {
      if view == Editor || (view == Play && activeLevel.None?) then Some(editing.level) else activeLevel
    }
  }

  /** Where a reset puts the Collector: on the start, heading the start direction, hidden when there is no start. */
  function AtStart(l: Level): CollectorState {
    CollectorState(l.startPosition.x, l.startPosition.y, l.startDirection, l.startPosition.x != -1, false)
  }

  /** The state the application opens in. */
  function Initial(time: string, author: Option<string>): AppState {
    AppState(Menu, [], Ed.Editing(CreateBlankLevel(time, author), TP.InitialSubState, None), None,
             Setup, [], None, CollectorState(-1, -1, East, false, false), InitialSim,
             None, None, false, false, 0, [])
  }

  /** Timer and reference bookkeeping that every reachable state keeps. */
  predicate Sound(s: AppState) {
    && 0 <= s.intervals
    && (s.held ==> s.intervals >= 1)
    && (s.status == Running || s.pending != [] ==> s.simCollector.Some? && s.live.Some?)
    && Ed.StartInside(s.editing.level)
    && Placement.AtMostOnePerCell(s.placedTools)
  }

  /** `Sound`, and the placed tools fit the inventory of the level on the board. */
  predicate Valid(s: AppState) {
    && Sound(s)
    && (s.CurrentLevel().Some? ==> Placement.WithinInventory(s.placedTools, s.CurrentLevel().value.inventory))
  }

  /** A running tick reads `grid[0]`, so the level on the board needs a row. */
  predicate TickReadable(s: AppState) {
    s.status == Running && s.CurrentLevel().Some? ==> |s.CurrentLevel().value.grid| > 0
  }

  /** `clearInterval` on the handle. */
  function Stopped(s: AppState): AppState {
    s.(held := false, intervals := if s.held then s.intervals - 1 else s.intervals)
  }

  /** `setInterval` with the handle stored; an interval the handle referred to before keeps running. */
  function Started(s: AppState): AppState {
    s.(held := true, intervals := s.intervals + 1)
  }

  /**
   * `resetBoard`: stops the interval, takes back the tools and the selected
   * tool, shows fresh counters and the Collector on the start, and goes back
   * to SETUP. The live Collector and counters and any scheduled teleport
   * resume are left alone.
   */
  function AfterReset(s: AppState): AppState {
    var r := Stopped(s).(placedTools := [], selectedTool := None, sim := InitialSim, status := Setup);
    match s.CurrentLevel()
    case Some(l) => r.(collector := AtStart(l))
    case None => r
  }

  /** The reset effect: once the level on the board is another one than `before`, the board is reset for it. */
  function Settled(s: AppState, before: Option<Level>): AppState {
    if s.CurrentLevel().Some? && s.CurrentLevel() != before then AfterReset(s) else s
  }

  /** `handlePlay`: from SETUP, on a level with a start, the run begins there with fresh counters. */
  function AfterPlay(s: AppState): AppState {
    if s.status != Setup || s.CurrentLevel().None? || s.CurrentLevel().value.startPosition.x == -1 then s
    else
      var l := s.CurrentLevel().value;
      var c := CollectorState(l.startPosition.x, l.startPosition.y, l.startDirection, true, false);
      Started(s.(status := Running, simCollector := Some(c), live := Some(InitialSim), collector := c, sim := InitialSim))
  }

  /** The FAIL branch of a tick: FAIL, the initials prompt opens, the interval stops. */
  function AfterFail(s: AppState): AppState {
    Stopped(s).(status := Fail, initialsOpen := true)
  }

  /**
   * `handleWin`: WIN, the interval stops, and an active level gets its new
   * high score and completion time, in the list of saved levels too.
   */
  function AfterWin(s: AppState, now: nat): AppState {
    var r := Stopped(s).(status := Win);
    match s.activeLevel
    case None => r
    case Some(a) =>
      var updated := WinUpdate(a, s.live.GetOr(InitialSim).collectedCoins, now);
      r.(activeLevel := Some(updated), savedLevels := ReplaceByName(s.savedLevels, updated))
  }

  /** `gameTick`: nothing unless running; otherwise what `Engine.Step` says, committed to the state. */
  function AfterTick(s: AppState, now: nat): AppState
    requires TickReadable(s)
  {
    if s.status != Running || s.simCollector.None? || s.live.None? || s.CurrentLevel().None? then s
    else Committed(s, Step(s.CurrentLevel().value, s.placedTools, s.simCollector.value, s.live.value), now)
  }

  /** A tick's outcome written to the live and shown state. */
  function Committed(s: AppState, o: StepOutcome, now: nat): AppState {
    match o
    case Failed => AfterFail(s)
    case Won(c) => AfterWin(s.(simCollector := Some(c), collector := c, sim := s.live.GetOr(InitialSim)), now)
    case Teleporting(c, sim', exit) =>
      Stopped(s).(simCollector := Some(c), collector := c, live := Some(sim'), pending := s.pending + [exit])
    case Moved(c, sim') => s.(simCollector := Some(c), collector := c, live := Some(sim'), sim := sim')
  }

  /**
   * The scheduled second half of a teleport: the live Collector appears on
   * the exit, the board shows it and the live counters, and the interval
   * restarts only if the status is still RUNNING.
   */
  function AfterResume(s: AppState): AppState
    requires s.pending != [] && s.simCollector.Some? && s.live.Some?
  {
    var c := Resumed(s.simCollector.value, s.pending[0]);
    var r := s.(pending := s.pending[1..], simCollector := Some(c), collector := c, sim := s.live.value);
    if s.status == Running then Started(r) else r
  }

  /** `handleTileClick`: a tool toggle in a SETUP run; an editor click in the editor, which then resets the board. */
  function AfterTileClick(s: AppState, x: int, y: int, exitDirection: Direction, startDirection: Direction): AppState
    requires s.view == Editor ==> Ed.InGrid(s.editing.level.grid, x, y)
  {
    if s.view == Play && s.status == Setup then
      match s.CurrentLevel()
      case Some(l) => s.(placedTools := Placement.Toggle(s.placedTools, x, y, s.selectedTool, l.inventory))
      case None => s
    else if s.view == Editor then
      Settled(s.(editing := Ed.Click(s.editing, x, y, exitDirection, startDirection)), s.CurrentLevel())
    else s
  }

  /**
   * `handleSaveLevel`: with a non-blank name the editor's level replaces its
   * namesake at the end of the list, and the board resets into the editor.
   */
  function AfterSave(s: AppState): AppState {
    match Save(s.savedLevels, s.editing.level, s.sim.collectedCoins)
    case None => s
    case Some(ls) => Settled(AfterReset(s.(savedLevels := ls)).(view := Editor), s.CurrentLevel())
  }

  /** `handleDeleteLevel`: removes the level's name from the list unless it is builtin. */
  function AfterDelete(s: AppState, level: Level): AppState {
    match Delete(s.savedLevels, level)
    case None => s
    case Some(ls) => s.(savedLevels := ls)
  }

  /** `handleLoadLevelToPlay`: plays `level`. */
  function AfterLoadToPlay(s: AppState, level: Level): AppState {
    Settled(s.(activeLevel := Some(level), view := Play), s.CurrentLevel())
  }

  /** `handleReturnToMenu`: resets the board for the level it was on, then leaves for the menu. */
  function AfterReturnToMenu(s: AppState): AppState {
    AfterReset(s).(activeLevel := None, view := Menu)
  }

  /** `handleReturnToEditor`. */
  function AfterReturnToEditor(s: AppState): AppState {
    Settled(AfterReset(s).(view := Editor), s.CurrentLevel())
  }

  /** The level after the one named `name` in `ls`, if any. */
  function NextLevel(ls: seq<Level>, name: string): (r: Option<Level>)
    ensures r.Some? <==> exists i :: 0 <= i < |ls| - 1 && FindIndex(ls, Named(name)) == Some(i)
    ensures r.Some? ==> r.value == ls[FindIndex(ls, Named(name)).value + 1]
  {
    match FindIndex(ls, Named(name))
    case Some(i) => if i + 1 < |ls| then Some(ls[i + 1]) else None
    case None => None
  }

  /**
   * `handleModalNext`: while playing a level, the next level of the list in
   * SETUP, or ALL_LEVELS_COMPLETE after the last one; otherwise a reset.
   */
  function AfterModalNext(s: AppState): AppState {
    if s.view == Play && s.activeLevel.Some? then
      match NextLevel(s.savedLevels, s.activeLevel.value.name)
      case Some(next) => Settled(s.(activeLevel := Some(next), view := Play, status := Setup), s.CurrentLevel())
      case None => s.(status := AllLevelsComplete)
    else AfterReset(s)
  }

  /** The menu's workshop button. */
  function AfterOpenEditor(s: AppState): AppState {
    Settled(s.(view := Editor), s.CurrentLevel())
  }

  /** The editor's test button: play the editor's level. */
  function AfterTestLevel(s: AppState): AppState {
    Settled(s.(activeLevel := None, view := Play), s.CurrentLevel())
  }

  /** The inventory bar: choose a tool, or none. */
  function AfterSelectTool(s: AppState, tool: Option<ToolType>): AppState {
    s.(selectedTool := tool)
  }

  /** The initials prompt's cancel button. */
  function AfterCloseInitials(s: AppState): AppState {
    s.(initialsOpen := false)
  }

  /** The palette's inventory field for `tool`, which edits the editor's level. */
  function AfterInventoryChange(s: AppState, tool: ToolType, amount: int): AppState {
    Settled(s.(editing := s.editing.(level := TP.InventoryChange(s.editing.level, tool, amount))), s.CurrentLevel())
  }

  /** The palette's teleporter button. */
  function AfterTeleporterClick(s: AppState): AppState {
    var r := TP.TeleporterClick(s.editing.sub, s.editing.selection, s.editing.level.teleporters);
    s.(editing := s.editing.(sub := r.0, selection := r.1))
  }

  /** A palette tile or force-tile button. */
  function AfterPaletteChoice(s: AppState, choice: PaletteSelection): AppState {
    s.(editing := s.editing.(selection := TP.Toggle(s.editing.selection, choice)))
  }

  /** The start-up merge of the stored levels with the builtin ones. */
  function AfterLoad(s: AppState, stored: seq<Level>, builtins: seq<Level>): AppState {
    s.(savedLevels := Merged(stored, builtins))
  }

  /** The application's state, updated in place by its handlers. */
  class Game {
    var view: AppView
    var savedLevels: seq<Level>
    var editing: Ed.Editing
    var activeLevel: Option<Level>
    var status: GameStatus
    var placedTools: seq<PlacedTool>
    var selectedTool: Option<ToolType>
    var collector: CollectorState
    var sim: SimulationState
    var simCollector: Option<CollectorState>
    var live: Option<SimulationState>
    var initialsOpen: bool
    var held: bool
    var intervals: int
    var pending: seq<Teleporter>

    function State(): AppState
      reads this
    {
      AppState(view, savedLevels, editing, activeLevel, status, placedTools, selectedTool,
               collector, sim, simCollector, live, initialsOpen, held, intervals, pending)
    }

    function CurrentLevel(): Option<Level>
      reads this
    {
      State().CurrentLevel()
    }

    /** The state on start-up, with a blank level in the editor made at `time` by `author`. */
    constructor (time: string, author: Option<string>)
      ensures State() == Initial(time, author)
    {
      view := Menu;
      savedLevels := [];
      editing := Ed.Editing(CreateBlankLevel(time, author), TP.InitialSubState, None);
      activeLevel := None;
      status := Setup;
      placedTools := [];
      selectedTool := None;
      collector := CollectorState(-1, -1, East, false, false);
      sim := InitialSim;
      simCollector := None;
      live := None;
      initialsOpen := false;
      held := false;
      intervals := 0;
      pending := [];
    }

    /** The start-up load: the stored levels merged with the builtin ones it returns. */
    method LoadLevels(stored: seq<Level>) returns (builtins: seq<Level>)
      modifies this
      ensures State() == AfterLoad(old(State()), stored, builtins)
      ensures |builtins| == 20
      ensures forall i :: 0 <= i < |builtins| ==> builtins[i].name == Levels.FaseName(i + 1) && builtins[i].origin == Some(Builtin)
    {
      builtins := Levels.BuiltinLevels();
      savedLevels := MergeLevels(stored, builtins);
    }

    method StopTicking()
      modifies this
      ensures State() == Stopped(old(State()))
    {
      if held {
        intervals := intervals - 1;
      }
      held := false;
    }

    method StartTicking()
      modifies this
      ensures State() == Started(old(State()))
    {
      intervals := intervals + 1;
      held := true;
    }

    method ResetBoard()
      modifies this
      ensures State() == AfterReset(old(State()))
    {
      StopTicking();
      placedTools := [];
      selectedTool := None;
      sim := InitialSim;
      var level := CurrentLevel();
      if level.Some? {
        collector := AtStart(level.value);
      }
      status := Setup;
    }

    /** The reset effect, run after a handler that may have changed the level on the board. */
    method Settle(before: Option<Level>)
      modifies this
      ensures State() == Settled(old(State()), before)
    {
      var level := CurrentLevel();
      if level.Some? && level != before {
        ResetBoard();
      }
    }

    method HandlePlay()
      modifies this
      ensures State() == AfterPlay(old(State()))
    {
      var level := CurrentLevel();
      if status != Setup || level.None? || level.value.startPosition.x == -1 {
        return;
      }
      ghost var before := State();
      status := Running;
      var l := level.value;
      var c := CollectorState(l.startPosition.x, l.startPosition.y, l.startDirection, true, false);
      simCollector := Some(c);
      live := Some(InitialSim);
      collector := simCollector.value;
      sim := live.value;
      assert State() == before.(status := Running, simCollector := Some(c), live := Some(InitialSim),
                                collector := c, sim := InitialSim);
      StartTicking();
    }

    method CheckFail()
      modifies this
      ensures State() == AfterFail(old(State()))
    {
      status := Fail;
      initialsOpen := true;
      StopTicking();
    }

    method HandleWin(now: nat)
      modifies this
      ensures State() == AfterWin(old(State()), now)
    {
      status := Win;
      StopTicking();
      if activeLevel.Some? {
        var coins := live.GetOr(InitialSim).collectedCoins;
        var updated := WinUpdate(activeLevel.value, coins, now);
        activeLevel := Some(updated);
        savedLevels := ReplaceByName(savedLevels, updated);
      }
    }

    /**
     * One firing of the game interval: nothing unless running; otherwise the
     * outcome `Advance` computes is committed to the live and shown state.
     */
    method GameTick(now: nat)
      requires TickReadable(State())
      modifies this
      ensures State() == AfterTick(old(State()), now)
    {
      if status != Running {
        return;
      }
      var level := CurrentLevel();
      if simCollector.None? || live.None? || level.None? {
        return;
      }
      var o := Advance(level.value, placedTools, simCollector.value, live.value);
      Commit(o, now);
    }

    method Commit(o: StepOutcome, now: nat)
      modifies this
      ensures State() == Committed(old(State()), o, now)
    {
      match o
      case Failed =>
        CheckFail();
      case Won(c) =>
        ghost var before := State();
        simCollector := Some(c);
        collector := c;
        sim := live.GetOr(InitialSim);
        assert State() == before.(simCollector := Some(c), collector := c, sim := before.live.GetOr(InitialSim));
        HandleWin(now);
      case Teleporting(c, s, exit) =>
        live := Some(s);
        StopTicking();
        simCollector := Some(c);
        collector := c;
        pending := pending + [exit];
      case Moved(c, s) =>
        live := Some(s);
        simCollector := Some(c);
        collector := c;
        sim := s;
    }

    /** The oldest scheduled teleport resume fires. */
    method ResumeTeleport()
      requires pending != [] && simCollector.Some? && live.Some?
      modifies this
      ensures State() == AfterResume(old(State()))
    {
      var exit := pending[0];
      pending := pending[1..];
      simCollector := Some(Resumed(simCollector.value, exit));
      collector := simCollector.value;
      sim := live.value;
      if status == Running {
        StartTicking();
      }
    }

    method HandleTileClick(x: int, y: int, exitDirection: Direction, startDirection: Direction)
      requires view == Editor ==> Ed.InGrid(editing.level.grid, x, y)
      requires Ed.StartInside(editing.level)
      modifies this
      ensures State() == AfterTileClick(old(State()), x, y, exitDirection, startDirection)
    {
      var level := CurrentLevel();
      if view == Play && status == Setup {
        if level.Some? {
          placedTools := Placement.Toggle(placedTools, x, y, selectedTool, level.value.inventory);
        }
      } else if view == Editor {
        editing := Ed.ClickCell(editing, x, y, exitDirection, startDirection);
        Settle(level);
      }
    }

    method HandleSaveLevel()
      modifies this
      ensures State() == AfterSave(old(State()))
    {
      var saved := Save(savedLevels, editing.level, sim.collectedCoins);
      if saved.None? {
        return;
      }
      ghost var s0 := State();
      var before := CurrentLevel();
      savedLevels := saved.value;
      ResetBoard();
      view := Editor;
      assert State() == AfterReset(s0.(savedLevels := saved.value)).(view := Editor);
      Settle(before);
    }

    method HandleDeleteLevel(level: Level)
      modifies this
      ensures State() == AfterDelete(old(State()), level)
    {
      var kept := Delete(savedLevels, level);
      if kept.Some? {
        savedLevels := kept.value;
      }
    }

    method HandleLoadLevelToPlay(level: Level)
      modifies this
      ensures State() == AfterLoadToPlay(old(State()), level)
    {
      var before := CurrentLevel();
      activeLevel := Some(level);
      view := Play;
      Settle(before);
    }

    method HandleReturnToMenu()
      modifies this
      ensures State() == AfterReturnToMenu(old(State()))
    {
      ResetBoard();
      activeLevel := None;
      view := Menu;
    }

    method HandleReturnToEditor()
      modifies this
      ensures State() == AfterReturnToEditor(old(State()))
    {
      var before := CurrentLevel();
      ResetBoard();
      view := Editor;
      Settle(before);
    }

    method HandleModalNext()
      modifies this
      ensures State() == AfterModalNext(old(State()))
    {
      if view == Play && activeLevel.Some? {
        var before := CurrentLevel();
        var idx := FindIndex(savedLevels, Named(activeLevel.value.name));
        var next := if idx.Some? && idx.value + 1 < |savedLevels| then Some(savedLevels[idx.value + 1]) else None;
        assert next == NextLevel(savedLevels, activeLevel.value.name);
        if next.Some? {
          activeLevel := next;
          view := Play;
          status := Setup;
          Settle(before);
        } else {
          status := AllLevelsComplete;
        }
      } else {
        ResetBoard();
      }
    }

    method OpenEditor()
      modifies this
      ensures State() == AfterOpenEditor(old(State()))
    {
      var before := CurrentLevel();
      view := Editor;
      Settle(before);
    }

    method TestLevel()
      modifies this
      ensures State() == AfterTestLevel(old(State()))
    {
      var before := CurrentLevel();
      activeLevel := None;
      view := Play;
      Settle(before);
    }

    method SelectTool(tool: Option<ToolType>)
      modifies this
      ensures State() == AfterSelectTool(old(State()), tool)
    {
      selectedTool := tool;
    }

    method CloseInitials()
      modifies this
      ensures State() == AfterCloseInitials(old(State()))
    {
      initialsOpen := false;
    }

    method HandleInventoryChange(tool: ToolType, amount: int)
      modifies this
      ensures State() == AfterInventoryChange(old(State()), tool, amount)
    {
      var before := CurrentLevel();
      editing := editing.(level := TP.InventoryChange(editing.level, tool, amount));
      Settle(before);
    }

    method HandleTeleporterClick()
      modifies this
      ensures State() == AfterTeleporterClick(old(State()))
    {
      var r := TP.TeleporterClick(editing.sub, editing.selection, editing.level.teleporters);
      editing := editing.(sub := r.0, selection := r.1);
    }

    method PaletteChoice(choice: PaletteSelection)
      modifies this
      ensures State() == AfterPaletteChoice(old(State()), choice)
    {
      editing := editing.(selection := TP.Toggle(editing.selection, choice));
    }
  }
}
