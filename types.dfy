/**
 * The data model of the puzzle: headings, tile and tool kinds, levels, the
 * Collector and the per-run simulation state, and the game status.
 */
module Types {
  import opened Wrappers

  /** One component of a heading; the source types it as `-1 | 0 | 1`. */
  type Delta = i: int | -1 <= i <= 1

  /** A heading `(dx, dy)`; x grows to the right and y grows downward. */
  datatype Direction = Direction(dx: Delta, dy: Delta)

  /**
   * Exactly one axis is non-zero. The type of `Direction` does not promise
   * this (`(0, 0)` and `(1, 1)` are both values of it), so it is a separate
   * predicate, kept by every transform and met by every builtin level.
   */
  predicate Cardinal(d: Direction) {
    (d.dx == 0) != (d.dy == 0)
  }

  const East := Direction(1, 0)
  const South := Direction(0, 1)
  const West := Direction(-1, 0)
  const North := Direction(0, -1)

  datatype TileType = Empty | Obstacle | Start | End | TeleporterTile | Coin | Key | Gate

  datatype ToolType = RotatorCw | RotatorCcw | Mirror

  const AllTileTypes: set<TileType> := {Empty, Obstacle, Start, End, TeleporterTile, Coin, Key, Gate}
  const AllToolTypes: set<ToolType> := {RotatorCw, RotatorCcw, Mirror}

  /** A grid coordinate; `collectedItems` keys its set by the string "x,y", i.e. by this pair. */
  datatype Pos = Pos(x: int, y: int)

  /** A tool the player has put on a cell for the current attempt. */
  datatype PlacedTool = PlacedTool(x: int, y: int, kind: ToolType)

  /** Rows indexed by y, then cells by x. */
  type Grid = seq<seq<TileType>>

  /** How many tools of each kind the player may place: a total map from the three kinds. */
  datatype Inventory = Inventory(rotatorCw: nat, rotatorCcw: nat, mirror: nat) {

    function Get(kind: ToolType): nat {
      match kind
      case RotatorCw => rotatorCw
      case RotatorCcw => rotatorCcw
      case Mirror => mirror
    }

    /** `{...inventory, [kind]: n}`: sets one count and keeps the other two. */
    function With(kind: ToolType, n: nat): (r: Inventory)
      ensures r.Get(kind) == n
      ensures forall k :: k != kind ==> r.Get(k) == Get(k)
    {
      match kind
      case RotatorCw => this.(rotatorCw := n)
      case RotatorCcw => this.(rotatorCcw := n)
      case Mirror => this.(mirror := n)
    }
  }

  datatype Role = In | Out

  /**
   * One end of a teleporter pair. Both ends carry an `exitDirection`, but the
   * simulation only ever reads the one on the `out` record.
   */
  datatype Teleporter = Teleporter(id: int, x: int, y: int, role: Role, exitDirection: Direction)

  /** A level-authored cell that always applies `action` to a passing Collector. */
  datatype ForceTile = ForceTile(x: int, y: int, action: ToolType)

  datatype Origin = Builtin | User | Community

  /**
   * A playable board. The optional fields of the source are `Option`s; the
   * optional server id of community levels is not part of this model.
   * `startPosition` is `(-1, -1)` while a level under edition has no start.
   */
  datatype Level = Level(
    name: string,
    grid: Grid,
    startPosition: Pos,
    startDirection: Direction,
    inventory: Inventory,
    teleporters: seq<Teleporter>,
    forceTiles: seq<ForceTile>,
    highScore: Option<nat>,
    totalCoins: Option<nat>,
    completedAt: Option<nat>,
    origin: Option<Origin>,
    createdBy: Option<string>)

  /** The moving entity: where it is, where it heads, and whether it is mid-teleport. */
  datatype CollectorState = CollectorState(x: int, y: int, direction: Direction, visible: bool, isTeleporting: bool)

  /** Per-run counters; `collectedItems` holds the coin and key cells already picked up. */
  datatype SimulationState = SimulationState(collectedCoins: nat, hasKey: bool, collectedItems: set<Pos>)

  datatype GameStatus = Setup | Running | Win | Fail | AllLevelsComplete

  const AllGameStatuses: set<GameStatus> := {Setup, Running, Win, Fail, AllLevelsComplete}

  datatype AppView = Menu | Editor | LevelBrowser | CommunityBrowser | Play

  /** What the editor palette has selected: a tile kind, or one of the two special placers. */
  datatype PaletteSelection = TileSel(tile: TileType) | TeleporterEditor | ForceTileEditor

  /** One line of the top-10 ranking. */
  datatype RankingEntry = RankingEntry(initials: string, score: int, level: Option<string>, at: int)

  /** TileType has exactly eight kinds, ToolType three and GameStatus five. */
  lemma EnumerationsAreExhaustive()
    ensures |AllTileTypes| == 8 && forall t: TileType :: t in AllTileTypes
    ensures |AllToolTypes| == 3 && forall k: ToolType :: k in AllToolTypes
    ensures |AllGameStatuses| == 5 && forall s: GameStatus :: s in AllGameStatuses
  {
    forall t: TileType ensures t in AllTileTypes {
      match t
      case Empty => case Obstacle => case Start => case End =>
      case TeleporterTile => case Coin => case Key => case Gate =>
    }
    forall k: ToolType ensures k in AllToolTypes {
      match k
      case RotatorCw => case RotatorCcw => case Mirror =>
    }
    forall s: GameStatus ensures s in AllGameStatuses {
      match s
      case Setup => case Running => case Win => case Fail => case AllLevelsComplete =>
    }
  }

  /** The cardinal headings are exactly the four compass points. */
  lemma CardinalIsCompassPoint(d: Direction)
    ensures Cardinal(d) <==> d in {East, South, West, North}
  {
  }

  /** The type alone admits headings that are not cardinal. */
  lemma DirectionTypeAdmitsNonCardinal()
    ensures !Cardinal(Direction(0, 0)) && !Cardinal(Direction(1, 1))
  {
  }
}
