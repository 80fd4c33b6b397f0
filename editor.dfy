/**
 * A click on a cell in the editor: it clears any teleporter or force-tile
 * record on the cell and the start if it was there, then places the next end
 * of a teleporter pair, or paints the selected tile, moves the start, or adds
 * a force tile. The exit and start directions a prompt asks for afterwards
 * are parameters.
 */
module Editor {
  import opened Wrappers
  import opened Seqs
  import opened Types
  import opened Levels
  import opened TilePalette

  /** What the editor holds: the level, the palette's sub-state and its selection. */
  datatype Editing = Editing(level: Level, sub: SubState, selection: Option<PaletteSelection>)

  /** The kinds a palette click paints directly. */
  const Placeable: set<TileType> := {End, Obstacle, Empty, Coin, Key, Gate}

  predicate InGrid(grid: Grid, x: int, y: int) {
    0 <= y < |grid| && 0 <= x < |grid[y]|
  }

  predicate HasStart(l: Level) {
    l.startPosition.x != -1
  }

  /** The start is absent (`x == -1`) or on a cell of the grid. */
  predicate StartInside(l: Level) {
    !HasStart(l) || InGrid(l.grid, l.startPosition.x, l.startPosition.y)
  }

  /** A start that is present lies on a `start` cell. */
  predicate StartMarked(l: Level) {
    HasStart(l) ==>
      InGrid(l.grid, l.startPosition.x, l.startPosition.y) && l.grid[l.startPosition.y][l.startPosition.x] == Start
  }

  /** `grid[y][x] = t` on a copy of the grid. */
  function SetCell(grid: Grid, x: int, y: int, t: TileType): (r: Grid)
    requires InGrid(grid, x, y)
    ensures |r| == |grid| && forall j :: 0 <= j < |grid| ==> |r[j]| == |grid[j]|
    ensures forall j, i :: InGrid(grid, i, j) ==> r[j][i] == if j == y && i == x then t else grid[j][i]
  {
    grid[y := grid[y][x := t]]
  }

  function TeleporterElsewhere(x: int, y: int): Teleporter -> bool {
    (t: Teleporter) => t.x != x || t.y != y
  }

  function ForceTileElsewhere(x: int, y: int): ForceTile -> bool {
    (t: ForceTile) => t.x != x || t.y != y
  }

  /** The tile the click paints on the clicked cell, if any. */
  function Paint(sub: SubState, selection: Option<PaletteSelection>): Option<TileType> {
    if sub.teleporterPlacement.Some? then Some(TeleporterTile)
    else match selection
      case Some(TileSel(t)) => if t in Placeable || t == Start then Some(t) else None
      case _ => None
  }

  /** The click moves the start to the clicked cell. */
  predicate MovesStart(sub: SubState, selection: Option<PaletteSelection>) {
    sub.teleporterPlacement.None? && selection == Some(TileSel(Start))
  }

  /** The clicked cell holds the start. */
  predicate OnStart(l: Level, x: int, y: int) {
    l.startPosition.x == x && l.startPosition.y == y
  }

  /** Cell (cx, cy) after a click on (x, y). */
  function CellAfter(e: Editing, x: int, y: int, cx: int, cy: int): TileType
    requires InGrid(e.level.grid, cx, cy)
  {
    if cx == x && cy == y && Paint(e.sub, e.selection).Some? then Paint(e.sub, e.selection).value
    else if MovesStart(e.sub, e.selection) && HasStart(e.level) && !OnStart(e.level, x, y)
      && OnStart(e.level, cx, cy) then Empty
    else e.level.grid[cy][cx]
  }

  /** The teleporter record the click adds, if a placement is under way. */
  function NewTeleporter(sub: SubState, x: int, y: int, exitDirection: Direction): seq<Teleporter> {
    match sub.teleporterPlacement
    case Some(p) => [Teleporter(p.pairId, x, y, p.stage, exitDirection)]
    case None => []
  }

  /** The force tile the click adds, if the force-tile placer is selected. */
  function NewForceTile(e: Editing, x: int, y: int): seq<ForceTile> {
    if e.sub.teleporterPlacement.None? && e.selection == Some(ForceTileEditor)
    then [ForceTile(x, y, e.sub.selectedForceTileAction)]
    else []
  }

  /** The placement advances `in` → `out` → none; finishing a pair also clears the selection. */
  function SubAfter(sub: SubState): SubState {
    match sub.teleporterPlacement
    case Some(Placement(id, In)) => sub.(teleporterPlacement := Some(Placement(id, Out)))
    case Some(Placement(_, Out)) => sub.(teleporterPlacement := None)
    case None => sub
  }

  function SelectionAfter(e: Editing): Option<PaletteSelection> {
    match e.sub.teleporterPlacement
    case Some(Placement(_, Out)) => None
    case _ => e.selection
  }

  /** The grid after a click on (x, y), cell by cell. */
  function ClickGrid(e: Editing, x: int, y: int): Grid {
    var g := e.level.grid;
    seq(|g|, cy requires 0 <= cy < |g| => seq(|g[cy]|, cx requires 0 <= cx < |g[cy]| => CellAfter(e, x, y, cx, cy)))
  }

  /** The editor after a click on (x, y), cell by cell and record by record. */
  function Click(e: Editing, x: int, y: int, exitDirection: Direction, startDirection: Direction): Editing
    requires InGrid(e.level.grid, x, y)
  {
    var l := e.level;
    var start :=
      if MovesStart(e.sub, e.selection) then Pos(x, y)
      else if OnStart(l, x, y) then Pos(-1, -1)
      else l.startPosition;
    Editing(
      l.(grid := ClickGrid(e, x, y),
         startPosition := start,
         startDirection := if MovesStart(e.sub, e.selection) then startDirection else l.startDirection,
         teleporters := Filter(l.teleporters, TeleporterElsewhere(x, y)) + NewTeleporter(e.sub, x, y, exitDirection),
         forceTiles := Filter(l.forceTiles, ForceTileElsewhere(x, y)) + NewForceTile(e, x, y)),
      SubAfter(e.sub),
      SelectionAfter(e))
  }

  /**
   * The editor branch of `handleTileClick`, step by step on copies of the
   * grid and of the record lists.
   */
  method ClickCell(e: Editing, x: int, y: int, exitDirection: Direction, startDirection: Direction)
    returns (r: Editing)
    requires InGrid(e.level.grid, x, y) && StartInside(e.level)
    ensures r == Click(e, x, y, exitDirection, startDirection)
  {
    var level := e.level;
    var grid := PaintGrid(e, x, y);
    var startPos := level.startPosition;
    var startDir := level.startDirection;
    var teleporters := Filter(level.teleporters, TeleporterElsewhere(x, y));
    var forceTiles := Filter(level.forceTiles, ForceTileElsewhere(x, y));
    if level.startPosition.x == x && level.startPosition.y == y {
      startPos := Pos(-1, -1);
    }
    var sub := e.sub;
    var selection := e.selection;
    if e.sub.teleporterPlacement.Some? {
      var p := e.sub.teleporterPlacement.value;
      teleporters := teleporters + [Teleporter(p.pairId, x, y, p.stage, exitDirection)];
      if p.stage == In {
        sub := sub.(teleporterPlacement := Some(Placement(p.pairId, Out)));
      } else {
        sub := sub.(teleporterPlacement := None);
        selection := None;
      }
    } else if e.selection.Some? {
      var s := e.selection.value;
      if s == TileSel(Start) {
        startPos := Pos(x, y);
        startDir := startDirection;
      } else if s == ForceTileEditor {
        forceTiles := forceTiles + [ForceTile(x, y, e.sub.selectedForceTileAction)];
      }
    }
    assert startPos == if MovesStart(e.sub, e.selection) then Pos(x, y)
      else if OnStart(level, x, y) then Pos(-1, -1) else level.startPosition;
    assert teleporters == Filter(level.teleporters, TeleporterElsewhere(x, y)) + NewTeleporter(e.sub, x, y, exitDirection);
    assert forceTiles == Filter(level.forceTiles, ForceTileElsewhere(x, y)) + NewForceTile(e, x, y);
    assert sub == SubAfter(e.sub) && selection == SelectionAfter(e);
    r := Editing(level.(grid := grid, startPosition := startPos, startDirection := startDir,
                        teleporters := teleporters, forceTiles := forceTiles), sub, selection);
  }

  /** The grid writes of a click (`newGrid[y][x] = …`), in the order the click makes them. */
  method PaintGrid(e: Editing, x: int, y: int) returns (grid: Grid)
    requires InGrid(e.level.grid, x, y) && StartInside(e.level)
    ensures grid == ClickGrid(e, x, y)
  {
    var level := e.level;
    grid := level.grid;
    if e.sub.teleporterPlacement.Some? {
      grid := SetCell(grid, x, y, TeleporterTile);
    } else if e.selection.Some? {
      var s := e.selection.value;
      if s.TileSel? && s.tile in Placeable {
        grid := SetCell(grid, x, y, s.tile);
      }
      if s == TileSel(Start) {
        if level.startPosition.x != -1 && !OnStart(level, x, y) {
          grid := SetCell(grid, level.startPosition.x, level.startPosition.y, Empty);
        }
        grid := SetCell(grid, x, y, Start);
      }
    }
    GridsEqual(grid, ClickGrid(e, x, y));
  }

  /** Two grids with the same shape and the same cells are equal. */
  lemma GridsEqual(a: Grid, b: Grid)
    requires |a| == |b| && forall y :: 0 <= y < |a| ==> |a[y]| == |b[y]|
    requires forall y, x :: 0 <= y < |a| && 0 <= x < |a[y]| ==> a[y][x] == b[y][x]
    ensures a == b
  {
    forall y | 0 <= y < |a| ensures a[y] == b[y] {
      assert forall x :: 0 <= x < |a[y]| ==> a[y][x] == b[y][x];
    }
  }

  /**
   * A click keeps the grid's shape and the start inside it, keeps a present
   * start on a `start` cell, and changes no cell but the clicked one and,
   * when the start moves, the old start cell (which becomes empty).
   */
  lemma ClickKeepsBoard(e: Editing, x: int, y: int, exitDirection: Direction, startDirection: Direction)
    requires InGrid(e.level.grid, x, y) && StartInside(e.level)
    ensures var r := Click(e, x, y, exitDirection, startDirection).level;
      && |r.grid| == |e.level.grid|
      && (forall cy :: 0 <= cy < |r.grid| ==> |r.grid[cy]| == |e.level.grid[cy]|)
      && StartInside(r)
      && (StartMarked(e.level) ==> StartMarked(r))
      && (forall cy, cx :: InGrid(r.grid, cx, cy) && r.grid[cy][cx] != e.level.grid[cy][cx] ==>
            (cx == x && cy == y) || (MovesStart(e.sub, e.selection) && OnStart(e.level, cx, cy) && r.grid[cy][cx] == Empty))
  {
  }

  /**
   * After a click, the clicked cell carries no teleporter or force-tile
   * record except the one the click added, and every record on another cell
   * is kept.
   */
  lemma ClickClearsRecords(e: Editing, x: int, y: int, exitDirection: Direction, startDirection: Direction)
    requires InGrid(e.level.grid, x, y)
    ensures var r := Click(e, x, y, exitDirection, startDirection).level;
      && (forall t :: t in r.teleporters && t.x == x && t.y == y ==>
            e.sub.teleporterPlacement.Some? && t == NewTeleporter(e.sub, x, y, exitDirection)[0])
      && (forall t :: t in r.forceTiles && t.x == x && t.y == y ==> t == ForceTile(x, y, e.sub.selectedForceTileAction))
      && (forall t :: t in e.level.teleporters && (t.x != x || t.y != y) ==> t in r.teleporters)
      && (forall t :: t in e.level.forceTiles && (t.x != x || t.y != y) ==> t in r.forceTiles)
  {
    var l := e.level;
    var r := Click(e, x, y, exitDirection, startDirection).level;
    var kept := Filter(l.teleporters, TeleporterElsewhere(x, y));
    forall t | t in kept ensures t.x != x || t.y != y {
      var j :| 0 <= j < |kept| && kept[j] == t;
      assert TeleporterElsewhere(x, y)(kept[j]);
    }
    forall t | t in l.teleporters && (t.x != x || t.y != y) ensures t in r.teleporters {
      var j :| 0 <= j < |l.teleporters| && l.teleporters[j] == t;
      assert TeleporterElsewhere(x, y)(l.teleporters[j]);
    }
    var keptF := Filter(l.forceTiles, ForceTileElsewhere(x, y));
    forall t | t in keptF ensures t.x != x || t.y != y {
      var j :| 0 <= j < |keptF| && keptF[j] == t;
      assert ForceTileElsewhere(x, y)(keptF[j]);
    }
    forall t | t in l.forceTiles && (t.x != x || t.y != y) ensures t in r.forceTiles {
      var j :| 0 <= j < |l.forceTiles| && l.forceTiles[j] == t;
      assert ForceTileElsewhere(x, y)(l.forceTiles[j]);
    }
  }

  /**
   * A pair placement from the palette button through two clicks on distinct
   * cells: the placement runs `in` → `out` → none, the selection ends empty,
   * and the level gains an `in` record on the first cell and an `out` record
   * on the second, both with pair id half the number of records the level
   * had, and no other record.
   */
  lemma PairPlacementCompletes(e: Editing, x1: int, y1: int, d1: Direction, x2: int, y2: int, d2: Direction, s: Direction)
    requires e.sub.teleporterPlacement.None?
    requires InGrid(e.level.grid, x1, y1) && InGrid(e.level.grid, x2, y2) && (x1 != x2 || y1 != y2)
    ensures var (sub0, sel0) := TeleporterClick(e.sub, e.selection, e.level.teleporters);
      var id := |e.level.teleporters| / 2;
      var e1 := Click(Editing(e.level, sub0, sel0), x1, y1, d1, s);
      var e2 := Click(e1, x2, y2, d2, s);
      && e1.sub.teleporterPlacement == Some(Placement(id, Out))
      && e2.sub.teleporterPlacement.None? && e2.selection.None?
      && Teleporter(id, x1, y1, In, d1) in e2.level.teleporters
      && Teleporter(id, x2, y2, Out, d2) in e2.level.teleporters
      && |e2.level.teleporters| <= |e.level.teleporters| + 2
      && (forall t :: t in e2.level.teleporters ==>
            t in e.level.teleporters || t == Teleporter(id, x1, y1, In, d1) || t == Teleporter(id, x2, y2, Out, d2))
  {
    var (sub0, sel0) := TeleporterClick(e.sub, e.selection, e.level.teleporters);
    var id := |e.level.teleporters| / 2;
    var e0 := Editing(e.level, sub0, sel0);
    var e1 := Click(e0, x1, y1, d1, s);
    var inEnd := Teleporter(id, x1, y1, In, d1);
    var k1 := Filter(e.level.teleporters, TeleporterElsewhere(x1, y1));
    assert e1.level.teleporters == k1 + [inEnd];
    var k2 := Filter(k1 + [inEnd], TeleporterElsewhere(x2, y2));
    assert TeleporterElsewhere(x2, y2)(inEnd);
    assert inEnd in k2 by {
      assert (k1 + [inEnd])[|k1|] == inEnd;
    }
    forall t | t in k2 ensures t in e.level.teleporters || t == inEnd {
      assert t in k1 + [inEnd];
    }
  }
}
