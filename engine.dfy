/**
 * The step engine as a specification: what one tick of the Collector does,
 * as a function of the level, the placed tools, the Collector and the run's
 * counters. The imperative tick of `App.Game` is proved to follow it.
 *
 * The checks run in a fixed order: bounds, obstacle, locked gate (FAIL);
 * end tile (WIN, which skips everything after it); coin/key pickup;
 * teleport from an `in` record to its `out` partner; placed-tool deflection,
 * then force-tile deflection.
 */
module Engine {
  import opened Wrappers
  import opened Seqs
  import opened Types
  import opened Directions

  /** The bounds test: width is the length of row 0, height the number of rows. */
  predicate InBounds(grid: Grid, x: int, y: int)
    requires |grid| > 0
  {
    0 <= x < |grid[0]| && 0 <= y < |grid|
  }

  /** `grid[y][x]`, which is `undefined` (None) past the end of a row shorter than row 0. */
  function TileAt(grid: Grid, x: int, y: int): Option<TileType>
    requires 0 <= y < |grid|
  {
    if 0 <= x < |grid[y]| then Some(grid[y][x]) else None
  }

  /** Coin and key pickup on the destination cell; a cell already collected is ignored. */
  function Pickup(s: SimulationState, tile: Option<TileType>, p: Pos): (r: SimulationState)
    ensures s.collectedCoins <= r.collectedCoins <= s.collectedCoins + 1
    ensures s.hasKey ==> r.hasKey
    ensures s.collectedItems <= r.collectedItems <= s.collectedItems + {p}
    ensures p !in s.collectedItems && tile == Some(Coin) ==>
      r == s.(collectedCoins := s.collectedCoins + 1, collectedItems := s.collectedItems + {p})
    ensures p !in s.collectedItems && tile == Some(Key) ==>
      r == s.(hasKey := true, collectedItems := s.collectedItems + {p})
    ensures p in s.collectedItems || (tile != Some(Coin) && tile != Some(Key)) ==> r == s
  {
    if p in s.collectedItems then s
    else if tile == Some(Coin) then s.(collectedCoins := s.collectedCoins + 1, collectedItems := s.collectedItems + {p})
    else if tile == Some(Key) then s.(hasKey := true, collectedItems := s.collectedItems + {p})
    else s
  }

  /**
   * The exit a step onto (x, y) teleports to: the first teleporter record at
   * that cell must have role `in`, and the first `out` record with the same
   * id is the exit. An `out` cell or an `in` without partner gives None.
   */
  function TeleportExit(ts: seq<Teleporter>, x: int, y: int): (r: Option<Teleporter>)
    ensures r.Some? ==> r.value in ts && r.value.role == Out
  {
    match Find(ts, LiesAt(x, y))
    case None => None
    case Some(t) => if t.role == In then Find(ts, ExitOf(t.id)) else None
  }

  /** The teleporter records lying on (x, y). */
  function LiesAt(x: int, y: int): Teleporter -> bool {
    (t: Teleporter) => t.x == x && t.y == y
  }

  /** The `out` records of pair `id`. */
  function ExitOf(id: int): Teleporter -> bool {
    (u: Teleporter) => u.id == id && u.role == Out
  }

  /** The tool placed on (x, y), if any (the first one found). */
  function ToolAt(tools: seq<PlacedTool>, x: int, y: int): Option<PlacedTool> {
    Find(tools, (t: PlacedTool) => t.x == x && t.y == y)
  }

  /** The force tile on (x, y), if any (the first one found). */
  function ForceTileAt(forceTiles: seq<ForceTile>, x: int, y: int): Option<ForceTile> {
    Find(forceTiles, (f: ForceTile) => f.x == x && f.y == y)
  }

  /** The heading after crossing (x, y): the placed tool's transform first, then the force tile's. */
  function Deflect(tools: seq<PlacedTool>, forceTiles: seq<ForceTile>, x: int, y: int, d: Direction): (r: Direction)
    ensures Cardinal(d) ==> Cardinal(r)
    ensures ToolAt(tools, x, y).None? && ForceTileAt(forceTiles, x, y).None? ==> r == d
  {
    var afterTool := match ToolAt(tools, x, y)
      case Some(t) => Apply(t.kind, d)
      case None => d;
    match ForceTileAt(forceTiles, x, y)
    case Some(f) => Apply(f.action, afterTool)
    case None => afterTool
  }

  /** What one tick does. */
  datatype StepOutcome =
    | Failed                                                            // FAIL; nothing moves
    | Won(collector: CollectorState)                                    // on the end tile; counters untouched
    | Teleporting(collector: CollectorState, sim: SimulationState, exit: Teleporter)  // paused on the `in` cell
    | Moved(collector: CollectorState, sim: SimulationState)

  /** The cell the Collector heads into. */
  function Destination(c: CollectorState): Pos {
    Pos(c.x + c.direction.dx, c.y + c.direction.dy)
  }

  /** One tick of a running game. */
  function Step(level: Level, tools: seq<PlacedTool>, c: CollectorState, s: SimulationState): StepOutcome
    requires |level.grid| > 0
  {
    var next := Destination(c);
    if !InBounds(level.grid, next.x, next.y) then Failed
    else
      var tile := TileAt(level.grid, next.x, next.y);
      if tile == Some(Obstacle) then Failed
      else if tile == Some(Gate) && !s.hasKey then Failed
      else if tile == Some(End) then Won(c.(x := next.x, y := next.y))
      else
        var s' := Pickup(s, tile, next);
        match TeleportExit(level.teleporters, next.x, next.y)
        case Some(exit) => Teleporting(c.(x := next.x, y := next.y, isTeleporting := true), s', exit)
        case None =>
          Moved(c.(x := next.x, y := next.y, direction := Deflect(tools, level.forceTiles, next.x, next.y, c.direction)), s')
  }

  /**
   * The tick as the program computes it, checking in its order: bounds,
   * obstacle, locked gate, end, pickup, teleport, tool, force tile; the
   * next cell and heading are local variables reassigned step by step.
   */
  method Advance(level: Level, tools: seq<PlacedTool>, c: CollectorState, s: SimulationState)
    returns (o: StepOutcome)
    requires |level.grid| > 0
    ensures o == Step(level, tools, c, s)
  {
    var nextX := c.x + c.direction.dx;
    var nextY := c.y + c.direction.dy;
    var nextDirection := c.direction;
    if nextX < 0 || nextX >= |level.grid[0]| || nextY < 0 || nextY >= |level.grid| {
      return Failed;
    }
    assert Destination(c) == Pos(nextX, nextY) && InBounds(level.grid, nextX, nextY);
    var nextTile := TileAt(level.grid, nextX, nextY);
    if nextTile == Some(Obstacle) || (nextTile == Some(Gate) && !s.hasKey) {
      return Failed;
    }
    if nextTile == Some(End) {
      return Won(c.(x := nextX, y := nextY));
    }
    var item := Pos(nextX, nextY);
    assert Step(level, tools, c, s) == match TeleportExit(level.teleporters, nextX, nextY)
      case Some(exit) => Teleporting(c.(x := nextX, y := nextY, isTeleporting := true), Pickup(s, nextTile, item), exit)
      case None =>
        Moved(c.(x := nextX, y := nextY, direction := Deflect(tools, level.forceTiles, nextX, nextY, c.direction)),
              Pickup(s, nextTile, item));
    var live := Collect(s, nextTile, item);
    var teleporter := Find(level.teleporters, LiesAt(nextX, nextY));
    if teleporter.Some? && teleporter.value.role == In {
      var pair := Find(level.teleporters, ExitOf(teleporter.value.id));
      if pair.Some? {
        return Teleporting(c.(x := nextX, y := nextY, isTeleporting := true), live, pair.value);
      }
    }
    nextDirection := Turn(tools, level.forceTiles, nextX, nextY, nextDirection);
    return Moved(c.(x := nextX, y := nextY, direction := nextDirection), live);
  }

  /** The pickup part of the tick: a coin or key not yet collected is counted and remembered. */
  method Collect(s: SimulationState, nextTile: Option<TileType>, item: Pos) returns (live: SimulationState)
    ensures live == Pickup(s, nextTile, item)
  {
    live := s;
    if item !in live.collectedItems {
      if nextTile == Some(Coin) {
        live := live.(collectedCoins := live.collectedCoins + 1, collectedItems := live.collectedItems + {item});
      }
      if nextTile == Some(Key) {
        live := live.(hasKey := true, collectedItems := live.collectedItems + {item});
      }
    }
  }

  /** The deflection part of the tick: the placed tool turns the heading first, then the force tile. */
  method Turn(tools: seq<PlacedTool>, forceTiles: seq<ForceTile>, x: int, y: int, d: Direction)
    returns (nextDirection: Direction)
    ensures nextDirection == Deflect(tools, forceTiles, x, y, d)
  {
    nextDirection := d;
    var tool := ToolAt(tools, x, y);
    if tool.Some? {
      nextDirection := Apply(tool.value.kind, nextDirection);
    }
    var forceTile := ForceTileAt(forceTiles, x, y);
    if forceTile.Some? {
      nextDirection := Apply(forceTile.value.action, nextDirection);
    }
  }

  /** The delayed second half of a teleport: the Collector reappears on the exit with the exit's heading. */
  function Resumed(c: CollectorState, exit: Teleporter): (r: CollectorState)
    ensures r.visible == c.visible && !r.isTeleporting
  {
    c.(x := exit.x, y := exit.y, direction := exit.exitDirection, isTeleporting := false)
  }
}

module EngineProperties {
  import opened Wrappers
  import opened Seqs
  import opened Types
  import opened Directions
  import opened Engine

  /** The counters an outcome carries forward (a failed or won tick keeps the old ones). */
  function SimAfter(o: StepOutcome, s: SimulationState): SimulationState {
    match o
    case Teleporting(_, s', _) => s'
    case Moved(_, s') => s'
    case _ => s
  }

  /** A tick fails exactly on leaving the grid, on an obstacle, or on a gate without the key. */
  lemma FailsExactly(level: Level, tools: seq<PlacedTool>, c: CollectorState, s: SimulationState)
    requires |level.grid| > 0
    ensures var n := Destination(c);
      Step(level, tools, c, s).Failed? <==>
        (!InBounds(level.grid, n.x, n.y)
         || TileAt(level.grid, n.x, n.y) == Some(Obstacle)
         || (TileAt(level.grid, n.x, n.y) == Some(Gate) && !s.hasKey))
  {
  }

  /** A gate lets the Collector through when it holds the key, and the key is not used up. */
  lemma GateWithKeyPasses(level: Level, tools: seq<PlacedTool>, c: CollectorState, s: SimulationState)
    requires |level.grid| > 0
    requires InBounds(level.grid, Destination(c).x, Destination(c).y)
    requires TileAt(level.grid, Destination(c).x, Destination(c).y) == Some(Gate)
    requires s.hasKey
    ensures var o := Step(level, tools, c, s);
      (o.Moved? || o.Teleporting?) && SimAfter(o, s).hasKey
  {
  }

  /**
   * Entering the end tile wins: the Collector moves onto it with its heading
   * unchanged and nothing else happens on that tick (no pickup, teleport or
   * deflection). Conversely a win happens only there.
   */
  lemma WinsExactlyOnEnd(level: Level, tools: seq<PlacedTool>, c: CollectorState, s: SimulationState)
    requires |level.grid| > 0
    ensures var n := Destination(c);
      Step(level, tools, c, s).Won? <==>
        (InBounds(level.grid, n.x, n.y) && TileAt(level.grid, n.x, n.y) == Some(End))
    ensures var n := Destination(c);
      Step(level, tools, c, s).Won? ==>
        Step(level, tools, c, s).collector == c.(x := n.x, y := n.y)
  {
  }

  /** Pickup is idempotent: picking up the same cell twice is picking it up once. */
  lemma PickupIdempotent(s: SimulationState, tile: Option<TileType>, p: Pos)
    ensures Pickup(Pickup(s, tile, p), tile, p) == Pickup(s, tile, p)
    ensures p in s.collectedItems ==> Pickup(s, tile, p) == s
  {
  }

  /**
   * Within a run the counters only grow: coins never decrease (and grow by at
   * most one per tick), a held key is never lost, collected cells stay
   * collected; re-entering a collected cell changes nothing.
   */
  lemma CountersOnlyGrow(level: Level, tools: seq<PlacedTool>, c: CollectorState, s: SimulationState)
    requires |level.grid| > 0
    ensures var s' := SimAfter(Step(level, tools, c, s), s);
      s.collectedCoins <= s'.collectedCoins <= s.collectedCoins + 1
      && (s.hasKey ==> s'.hasKey)
      && s.collectedItems <= s'.collectedItems
    ensures Destination(c) in s.collectedItems ==> SimAfter(Step(level, tools, c, s), s) == s
  {
  }

  /** No teleporter record on the cell: no teleport. */
  lemma NoTeleporterNoExit(ts: seq<Teleporter>, x: int, y: int)
    requires forall j :: 0 <= j < |ts| ==> !(ts[j].x == x && ts[j].y == y)
    ensures TeleportExit(ts, x, y).None?
  {
  }

  /**
   * When record `i` is the first one on the cell, it decides the teleport:
   * an `out` record gives none; an `in` record gives the first `out` record
   * with its id, and none exactly when the pair has no `out` record.
   */
  lemma FirstRecordOnCellDecides(ts: seq<Teleporter>, x: int, y: int, i: nat)
    requires i < |ts| && ts[i].x == x && ts[i].y == y
    requires forall j :: 0 <= j < i ==> !(ts[j].x == x && ts[j].y == y)
    ensures ts[i].role == Out ==> TeleportExit(ts, x, y).None?
    ensures ts[i].role == In ==>
      (TeleportExit(ts, x, y).None? <==> forall k :: 0 <= k < |ts| ==> !(ts[k].id == ts[i].id && ts[k].role == Out))
  {
    FirstMatch(ts, LiesAt(x, y), i);
  }

  /** With `i` the first record on the cell, an `in` one, and `k` the first `out` record of its pair, the exit is `k`. */
  lemma PairedInLeadsToFirstExit(ts: seq<Teleporter>, x: int, y: int, i: nat, k: nat)
    requires i < |ts| && ts[i].x == x && ts[i].y == y && ts[i].role == In
    requires forall j :: 0 <= j < i ==> !(ts[j].x == x && ts[j].y == y)
    requires k < |ts| && ts[k].id == ts[i].id && ts[k].role == Out
    requires forall j :: 0 <= j < k ==> !(ts[j].id == ts[i].id && ts[j].role == Out)
    ensures TeleportExit(ts, x, y) == Some(ts[k])
  {
    FirstMatch(ts, LiesAt(x, y), i);
    FirstMatch(ts, ExitOf(ts[i].id), k);
  }

  /**
   * A paired `in` teleporter relocates the Collector in two phases: the tick
   * leaves it on the `in` cell, marked as teleporting, with its heading
   * unchanged; the resume puts it on the partner's cell with the partner's
   * exit heading. No tool or force tile acts on that tick.
   */
  lemma TeleportIsTwoPhase(level: Level, tools: seq<PlacedTool>, c: CollectorState, s: SimulationState)
    requires |level.grid| > 0
    requires Step(level, tools, c, s).Teleporting?
    ensures var o := Step(level, tools, c, s);
      var n := Destination(c);
      o.collector == c.(x := n.x, y := n.y, isTeleporting := true)
      && o.exit == TeleportExit(level.teleporters, n.x, n.y).value
      && o.exit.role == Out && o.exit in level.teleporters
      && Resumed(o.collector, o.exit) == c.(x := o.exit.x, y := o.exit.y, direction := o.exit.exitDirection, isTeleporting := false)
  {
  }

  /**
   * A cell without a paired `in` record (no teleporter, an `out` record, or an
   * unpaired `in`) behaves as a plain cell: the Collector moves onto it and
   * its heading is the force tile's transform of the placed tool's transform
   * of the old heading, the tool first.
   */
  lemma PlainStepDeflects(level: Level, tools: seq<PlacedTool>, c: CollectorState, s: SimulationState)
    requires |level.grid| > 0
    requires var n := Destination(c);
      InBounds(level.grid, n.x, n.y)
      && TileAt(level.grid, n.x, n.y) !in {Some(Obstacle), Some(End)}
      && (TileAt(level.grid, n.x, n.y) == Some(Gate) ==> s.hasKey)
      && TeleportExit(level.teleporters, n.x, n.y).None?
    ensures var n := Destination(c);
      var afterTool := match ToolAt(tools, n.x, n.y) case Some(t) => Apply(t.kind, c.direction) case None => c.direction;
      var heading := match ForceTileAt(level.forceTiles, n.x, n.y) case Some(f) => Apply(f.action, afterTool) case None => afterTool;
      Step(level, tools, c, s) == Moved(c.(x := n.x, y := n.y, direction := heading), Pickup(s, TileAt(level.grid, n.x, n.y), n))
  {
  }

  /** Every teleporter exit heading of the level is cardinal. */
  predicate ExitsCardinal(level: Level) {
    forall i :: 0 <= i < |level.teleporters| ==> Cardinal(level.teleporters[i].exitDirection)
  }

  /** A cardinal heading stays cardinal through a tick and through the teleport resume. */
  lemma StepKeepsCardinal(level: Level, tools: seq<PlacedTool>, c: CollectorState, s: SimulationState)
    requires |level.grid| > 0
    requires Cardinal(c.direction) && ExitsCardinal(level)
    ensures match Step(level, tools, c, s)
      case Failed => true
      case Won(c') => Cardinal(c'.direction)
      case Moved(c', _) => Cardinal(c'.direction)
      case Teleporting(c', _, e) => Cardinal(c'.direction) && Cardinal(Resumed(c', e).direction)
  {
    var n := Destination(c);
    match Step(level, tools, c, s)
    case Teleporting(c', _, e) =>
      var i :| 0 <= i < |level.teleporters| && level.teleporters[i] == e;
    case _ =>
  }

  /** `FindIndex` depends only on the values of its predicate along the sequence. */
  lemma {:induction false} FindIndexCongruent<T, U>(s: seq<T>, p: T -> bool, s': seq<U>, p': U -> bool)
    requires |s| == |s'|
    requires forall j :: 0 <= j < |s| ==> p(s[j]) == p'(s'[j])
    ensures FindIndex(s, p) == FindIndex(s', p')
  {
    if s != [] {
      FindIndexCongruent(s[1..], p, s'[1..], p');
    }
  }

  /**
   * The `exitDirection` stored on an `in` record is never read: changing it
   * does not change any tick.
   */
  lemma InExitDirectionUnused(level: Level, i: nat, e: Direction, tools: seq<PlacedTool>, c: CollectorState, s: SimulationState)
    requires |level.grid| > 0
    requires i < |level.teleporters| && level.teleporters[i].role == In
    ensures var ts' := level.teleporters[i := level.teleporters[i].(exitDirection := e)];
      Step(level.(teleporters := ts'), tools, c, s) == Step(level, tools, c, s)
  {
    var n := Destination(c);
    InExitKeepsTeleportExit(level.teleporters, i, e, n.x, n.y);
  }

  /** Changing an `in` record's exit direction leaves the exit of every cell as it was. */
  lemma InExitKeepsTeleportExit(ts: seq<Teleporter>, i: nat, e: Direction, x: int, y: int)
    requires i < |ts| && ts[i].role == In
    ensures TeleportExit(ts[i := ts[i].(exitDirection := e)], x, y) == TeleportExit(ts, x, y)
  {
    var ts' := ts[i := ts[i].(exitDirection := e)];
    FindIndexCongruent(ts', LiesAt(x, y), ts, LiesAt(x, y));
    match FindIndex(ts, LiesAt(x, y))
    case None =>
    case Some(j) =>
      FindIndexCongruent(ts', ExitOf(ts[j].id), ts, ExitOf(ts[j].id));
  }
}
