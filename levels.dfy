/**
 * The twenty builtin levels and the small grid API they are built with: a
 * fresh 10×10 grid of empty cells, an in-place write of one cell, and the
 * number of coin cells (which every builtin records as `totalCoins`).
 */
module Levels {
  import opened Wrappers
  import opened Seqs
  import opened Types
  import opened Engine

  /** The side of every builtin grid. */
  const N: nat := 10

  /** A square grid of empty cells, `size` rows of `size` cells. */
  function EmptyGrid(size: nat): (g: Grid)
    ensures |g| == size
    ensures forall y :: 0 <= y < size ==> |g[y]| == size
    ensures forall y, x :: 0 <= y < size && 0 <= x < size ==> g[y][x] == Empty
  {
    seq(size, _ => seq(size, _ => Empty))
  }

  /** The rows of a grid held in a two-dimensional array, `g[y, x]` being `grid[y][x]`. */
  function Rows(g: array2<TileType>): (r: Grid)
    reads g
    ensures |r| == g.Length0
    ensures forall y :: 0 <= y < g.Length0 ==> |r[y]| == g.Length1
    ensures forall y, x :: 0 <= y < g.Length0 && 0 <= x < g.Length1 ==> r[y][x] == g[y, x]
  {
    seq(g.Length0, y requires 0 <= y < g.Length0 reads g =>
      seq(g.Length1, x requires 0 <= x < g.Length1 reads g => g[y, x]))
  }

  /** All cells, row after row (`grid.flat()`). */
  function Flatten(grid: Grid): seq<TileType> {
    if grid == [] then [] else grid[0] + Flatten(grid[1..])
  }

  predicate IsCoin(t: TileType) {
    t == Coin
  }

  /** `coinsCount`: how many cells of the grid are coins. */
  function CoinsCount(grid: Grid): nat {
    Count(Flatten(grid), IsCoin)
  }

  /** The coin cells, as coordinates. */
  function CoinCells(grid: Grid): set<Pos> {
    set y, x | 0 <= y < |grid| && 0 <= x < |grid[y]| && grid[y][x] == Coin :: Pos(x, y)
  }

  /** `dir`: the direction with the given components. */
  function Dir(dx: Delta, dy: Delta): Direction {
    Direction(dx, dy)
  }

  lemma {:induction false} FlattenConcat(a: Grid, b: Grid)
    ensures Flatten(a + b) == Flatten(a) + Flatten(b)
  {
    if a == [] {
      assert a + b == b;
    } else {
      assert (a + b)[1..] == a[1..] + b;
      FlattenConcat(a[1..], b);
    }
  }

  /** The coin cells of one row `y`. */
  function RowCoinCells(row: seq<TileType>, y: int): set<Pos> {
    set x | 0 <= x < |row| && row[x] == Coin :: Pos(x, y)
  }

  lemma {:induction false} RowCoinCellsCount(row: seq<TileType>, y: int)
    ensures |RowCoinCells(row, y)| == Count(row, IsCoin)
  {
    if row == [] {
      assert RowCoinCells(row, y) == {};
    } else {
      var m := |row| - 1;
      var front := row[..m];
      RowCoinCellsCount(front, y);
      assert row == front + [row[m]];
      CountAppend(front, row[m], IsCoin);
      if row[m] == Coin {
        assert RowCoinCells(row, y) == RowCoinCells(front, y) + {Pos(m, y)};
      } else {
        assert RowCoinCells(row, y) == RowCoinCells(front, y);
      }
    }
  }

  /** `coinsCount` counts exactly the coin cells. */
  lemma {:induction false} CoinsCountIsCoinCells(grid: Grid)
    ensures CoinsCount(grid) == |CoinCells(grid)|
  {
    if grid == [] {
      assert CoinCells(grid) == {};
    } else {
      var n := |grid| - 1;
      var front := grid[..n];
      var row := grid[n];
      CoinsCountIsCoinCells(front);
      assert grid == front + [row];
      FlattenConcat(front, [row]);
      assert Flatten([row]) == row by {
        assert [row][1..] == [];
      }
      CountConcat(Flatten(front), row, IsCoin);
      RowCoinCellsCount(row, n);
      assert CoinCells(grid) == CoinCells(front) + RowCoinCells(row, n);
      assert CoinCells(front) !! RowCoinCells(row, n);
    }
  }

  /** A grid whose coin cells are `cells` has `|cells|` coins. */
  lemma CoinsCountFromCells(grid: Grid, cells: set<Pos>)
    requires CoinCells(grid) == cells
    ensures CoinsCount(grid) == |cells|
  {
    CoinsCountIsCoinCells(grid);
  }

  /** The Fase 19 layout: coins on the odd columns of row 2 and the even columns 2..8 of row 7. */
  predicate ZigzagCoin(x: int, y: int) {
    (y == 2 && x % 2 == 1 && 0 <= x < 9) || (y == 7 && x % 2 == 0 && 2 <= x < 9)
  }

  /** The Fase 19 coin cells. */
  function ZigzagCells(): set<Pos> {
    {Pos(1, 2), Pos(3, 2), Pos(5, 2), Pos(7, 2), Pos(2, 7), Pos(4, 7), Pos(6, 7), Pos(8, 7)}
  }

  lemma ZigzagCellsAreCoinCells(grid: Grid)
    requires |grid| == N && forall y :: 0 <= y < N ==> |grid[y]| == N
    requires forall y, x :: 0 <= y < N && 0 <= x < N ==> (grid[y][x] == Coin <==> ZigzagCoin(x, y))
    ensures CoinCells(grid) == ZigzagCells()
  {
    forall p | p in CoinCells(grid)
      ensures p in ZigzagCells()
    {
      assert ZigzagCoin(p.x, p.y);
    }
    forall p | p in ZigzagCells()
      ensures p in CoinCells(grid)
    {
      assert ZigzagCoin(p.x, p.y);
      assert grid[p.y][p.x] == Coin;
    }
  }

  lemma ZigzagCoinsCount(grid: Grid)
    requires |grid| == N && forall y :: 0 <= y < N ==> |grid[y]| == N
    requires forall y, x :: 0 <= y < N && 0 <= x < N ==> (grid[y][x] == Coin <==> ZigzagCoin(x, y))
    ensures CoinsCount(grid) == 8
  {
    ZigzagCellsAreCoinCells(grid);
    CoinsCountFromCells(grid, ZigzagCells());
    assert |ZigzagCells()| == 8;
  }

  /** `makeGrid`: a fresh N×N grid, every cell empty. */
  method MakeGrid() returns (g: array2<TileType>)
    ensures fresh(g) && g.Length0 == N && g.Length1 == N
    ensures forall y, x :: 0 <= y < N && 0 <= x < N ==> g[y, x] == Empty
    ensures Rows(g) == EmptyGrid(N)
  {
    g := new TileType[N, N]((_, _) => Empty);
    forall y | 0 <= y < N
      ensures Rows(g)[y] == EmptyGrid(N)[y]
    {
    }
  }

  /** `place`: writes cell (x, y) and no other. */
  method Place(g: array2<TileType>, x: int, y: int, t: TileType)
    requires 0 <= y < g.Length0 && 0 <= x < g.Length1
    modifies g
    ensures forall j, i :: 0 <= j < g.Length0 && 0 <= i < g.Length1 ==>
      g[j, i] == if j == y && i == x then t else old(g[j, i])
  {
    g[y, x] := t;
  }

  /** The records of pair `id` with role `role`. */
  function RecordOf(id: int, role: Role): Teleporter -> bool {
    (t: Teleporter) => t.id == id && t.role == role
  }

  /** Records `i..` lie on teleporter cells of `grid` and exit along a compass heading. */
  predicate OnTeleporterCells(grid: Grid, ts: seq<Teleporter>, i: nat)
    decreases |ts| - i
  {
    i >= |ts|
    || (0 <= ts[i].y < |grid| && 0 <= ts[i].x < |grid[ts[i].y]|
        && grid[ts[i].y][ts[i].x] == TeleporterTile && Cardinal(ts[i].exitDirection)
        && OnTeleporterCells(grid, ts, i + 1))
  }

  /** Records `i..` each share their cell with no later record, and their id with exactly one `in` and one `out` record. */
  predicate PairedFrom(ts: seq<Teleporter>, i: nat)
    decreases |ts| - i
  {
    i >= |ts|
    || (Count(ts[i + 1..], LiesAt(ts[i].x, ts[i].y)) == 0
        && Count(ts, RecordOf(ts[i].id, In)) == 1 && Count(ts, RecordOf(ts[i].id, Out)) == 1
        && PairedFrom(ts, i + 1))
  }

  /** An `in` and an `out` record of one pair, on two cells. */
  lemma OnePairPaired(a: Teleporter, b: Teleporter)
    requires a.id == b.id && a.role == In && b.role == Out
    requires !(a.x == b.x && a.y == b.y)
    ensures PairedFrom([a, b], 0)
  {
    var ts := [a, b];
    assert ts[1..] == [b] && ts[2..] == [] && [b][1..] == [];
    forall id, role
      ensures Count(ts, RecordOf(id, role))
           == (if a.id == id && a.role == role then 1 else 0) + (if b.id == id && b.role == role then 1 else 0)
    {
      var p := RecordOf(id, role);
      assert Count([b], p) == (if p(b) then 1 else 0) + Count([b][1..], p);
      assert Count(ts, p) == (if p(a) then 1 else 0) + Count(ts[1..], p);
    }
    assert Count([b], LiesAt(a.x, a.y)) == 0 + Count([b][1..], LiesAt(a.x, a.y));
    assert PairedFrom(ts, 2);
    assert PairedFrom(ts, 1);
  }

  /** Two pairs with distinct ids, each as `in` then `out`, on four distinct cells. */
  lemma TwoPairsPaired(a: Teleporter, b: Teleporter, c: Teleporter, d: Teleporter)
    requires a.id == b.id && c.id == d.id && a.id != c.id
    requires a.role == In && b.role == Out && c.role == In && d.role == Out
    requires !(a.x == b.x && a.y == b.y) && !(a.x == c.x && a.y == c.y) && !(a.x == d.x && a.y == d.y)
    requires !(b.x == c.x && b.y == c.y) && !(b.x == d.x && b.y == d.y) && !(c.x == d.x && c.y == d.y)
    ensures PairedFrom([a, b, c, d], 0)
  {
    var ts := [a, b, c, d];
    assert ts[1..] == [b, c, d] && ts[2..] == [c, d] && ts[3..] == [d] && ts[4..] == [];
    assert [b, c, d][1..] == [c, d] && [c, d][1..] == [d] && [d][1..] == [];
    forall id, role
      ensures Count(ts, RecordOf(id, role))
           == (if a.id == id && a.role == role then 1 else 0) + (if b.id == id && b.role == role then 1 else 0)
            + (if c.id == id && c.role == role then 1 else 0) + (if d.id == id && d.role == role then 1 else 0)
    {
      var p := RecordOf(id, role);
      assert Count([d], p) == (if p(d) then 1 else 0) + Count([d][1..], p);
      assert Count([c, d], p) == (if p(c) then 1 else 0) + Count([c, d][1..], p);
      assert Count([b, c, d], p) == (if p(b) then 1 else 0) + Count([b, c, d][1..], p);
      assert Count(ts, p) == (if p(a) then 1 else 0) + Count(ts[1..], p);
    }
    forall x, y
      ensures Count(ts[1..], LiesAt(x, y))
           == (if b.x == x && b.y == y then 1 else 0) + (if c.x == x && c.y == y then 1 else 0) + (if d.x == x && d.y == y then 1 else 0)
      ensures Count(ts[2..], LiesAt(x, y)) == (if c.x == x && c.y == y then 1 else 0) + (if d.x == x && d.y == y then 1 else 0)
      ensures Count(ts[3..], LiesAt(x, y)) == (if d.x == x && d.y == y then 1 else 0)
    {
      var p := LiesAt(x, y);
      assert Count([d], p) == (if p(d) then 1 else 0) + Count([d][1..], p);
      assert Count([c, d], p) == (if p(c) then 1 else 0) + Count([c, d][1..], p);
      assert Count([b, c, d], p) == (if p(b) then 1 else 0) + Count([b, c, d][1..], p);
    }
    assert PairedFrom(ts, 4);
    assert PairedFrom(ts, 3);
    assert PairedFrom(ts, 2);
    assert PairedFrom(ts, 1);
  }

  /** A record lies on a teleporter cell of `grid` and exits along a compass heading. */
  predicate OnTeleporterCell(grid: Grid, t: Teleporter) {
    0 <= t.y < |grid| && 0 <= t.x < |grid[t.y]| && grid[t.y][t.x] == TeleporterTile && Cardinal(t.exitDirection)
  }

  lemma OnTeleporterCellsOfTwo(grid: Grid, a: Teleporter, b: Teleporter)
    requires OnTeleporterCell(grid, a) && OnTeleporterCell(grid, b)
    ensures OnTeleporterCells(grid, [a, b], 0)
  {
    assert OnTeleporterCells(grid, [a, b], 2);
    assert OnTeleporterCells(grid, [a, b], 1);
  }

  lemma OnTeleporterCellsOfFour(grid: Grid, a: Teleporter, b: Teleporter, c: Teleporter, d: Teleporter)
    requires OnTeleporterCell(grid, a) && OnTeleporterCell(grid, b) && OnTeleporterCell(grid, c) && OnTeleporterCell(grid, d)
    ensures OnTeleporterCells(grid, [a, b, c, d], 0)
  {
    var ts := [a, b, c, d];
    assert OnTeleporterCells(grid, ts, 4);
    assert OnTeleporterCells(grid, ts, 3);
    assert OnTeleporterCells(grid, ts, 2);
    assert OnTeleporterCells(grid, ts, 1);
  }

  /** Force tiles `i..` lie inside an N×N grid. */
  predicate ForceTilesInside(fs: seq<ForceTile>, i: nat)
    decreases |fs| - i
  {
    i >= |fs| || (0 <= fs[i].x < N && 0 <= fs[i].y < N && ForceTilesInside(fs, i + 1))
  }

  /** What every builtin level satisfies. */
  predicate BuiltinShape(l: Level) {
    |l.grid| == N && (forall y :: 0 <= y < N ==> |l.grid[y]| == N)
    && 0 <= l.startPosition.x < N && 0 <= l.startPosition.y < N
    && l.grid[l.startPosition.y][l.startPosition.x] == Start
    && Cardinal(l.startDirection)
    && OnTeleporterCells(l.grid, l.teleporters, 0)
    && PairedFrom(l.teleporters, 0)
    && ForceTilesInside(l.forceTiles, 0)
    && l.highScore == Some(0)
    && l.totalCoins == Some(CoinsCount(l.grid))
    && l.completedAt.None?
  }

  /** The name of builtin level `k`, as levels.ts spells it. */
  function FaseName(k: nat): string {
    if k == 1 then "Fase 1 — Primeiros Passos"
    else if k == 2 then "Fase 2 — Curva Dupla"
    else if k == 3 then "Fase 3 — Espelho Retrocesso"
    else if k == 4 then "Fase 4 — Caminho de Ouro"
    else if k == 5 then "Fase 5 — Guarda do Portão"
    else if k == 6 then "Fase 6 — Salto Quântico"
    else if k == 7 then "Fase 7 — Piso Impulsor"
    else if k == 8 then "Fase 8 — Rede de Portais"
    else if k == 9 then "Fase 9 — Jogo de Espelhos"
    else if k == 10 then "Fase 10 — Travessia Complexa"
    else if k == 11 then "Fase 11 — Malha Vetorial"
    else if k == 12 then "Fase 12 — Dupla Tranca"
    else if k == 13 then "Fase 13 — Carrossel Óptico"
    else if k == 14 then "Fase 14 — Reflexo em Cruz"
    else if k == 15 then "Fase 15 — Permutação de Portais"
    else if k == 16 then "Fase 16 — Labirinto Denso"
    else if k == 17 then "Fase 17 — Chave Mestra"
    else if k == 18 then "Fase 18 — Quadrante de Portais"
    else if k == 19 then "Fase 19 — Colheita em Zigue"
    else "Fase 20 — Grande Desafio"
  }

  /** The number in a builtin level's name, `Fase <n> — <title>`. */
  function FaseNumber(name: string): int {
    if |name| < 7 then -1
    else if name[6] == ' ' then Digit(name[5])
    else 10 * Digit(name[5]) + Digit(name[6])
  }

  function Digit(c: char): int {
    c as int - '0' as int
  }

  /** Builtin level `k` is named `Fase <k> — …`, so no two builtin names coincide. */
  lemma FaseNamesDistinct()
    ensures forall i, j :: 1 <= i < j <= 20 ==> FaseName(i) != FaseName(j)
  {
    forall k | 1 <= k <= 20
      ensures FaseNumber(FaseName(k)) == k
    {
      if k == 1 {
      } else if k == 2 {
      } else if k == 3 {
      } else if k == 4 {
      } else if k == 5 {
      } else if k == 6 {
      } else if k == 7 {
      } else if k == 8 {
      } else if k == 9 {
      } else if k == 10 {
      } else if k == 11 {
      } else if k == 12 {
      } else if k == 13 {
      } else if k == 14 {
      } else if k == 15 {
      } else if k == 16 {
      } else if k == 17 {
      } else if k == 18 {
      } else if k == 19 {
      } else {
      }
    }
  }
  /** Primeiros Passos. */
  method Fase1() returns (l: Level)
    ensures BuiltinShape(l) && l.name == FaseName(1)
  {
    var g := MakeGrid();
    Place(g, 1, 5, Start);
    Place(g, 3, 5, Obstacle);
    Place(g, 2, 7, Coin);
    Place(g, 2, 8, End);
    var rows := Rows(g);
    l := Level(FaseName(1), rows, Pos(1, 5), Dir(1, 0), Inventory(1, 0, 0),
      [], [], Some(0), Some(CoinsCount(rows)), None, None, None);
  }

  /** Curva Dupla. */
  method Fase2() returns (l: Level)
    ensures BuiltinShape(l) && l.name == FaseName(2)
  {
    var g := MakeGrid();
    Place(g, 1, 1, Start);
    Place(g, 4, 1, Obstacle);
    Place(g, 3, 2, Coin);
    Place(g, 5, 3, End);
    var rows := Rows(g);
    l := Level(FaseName(2), rows, Pos(1, 1), Dir(1, 0), Inventory(1, 1, 0),
      [], [], Some(0), Some(CoinsCount(rows)), None, None, None);
  }

  /** Espelho Retrocesso. */
  method Fase3() returns (l: Level)
    ensures BuiltinShape(l) && l.name == FaseName(3)
  {
    var g := MakeGrid();
    Place(g, 2, 2, Start);
    Place(g, 3, 2, Coin);
    Place(g, 4, 2, Obstacle);
    Place(g, 1, 2, End);
    var rows := Rows(g);
    l := Level(FaseName(3), rows, Pos(2, 2), Dir(1, 0), Inventory(0, 0, 1),
      [], [], Some(0), Some(CoinsCount(rows)), None, None, None);
  }

  /** Caminho de Ouro. */
  method Fase4() returns (l: Level)
    ensures BuiltinShape(l) && l.name == FaseName(4)
  {
    var g := MakeGrid();
    Place(g, 1, 4, Start);
    Place(g, 2, 4, Coin);
    Place(g, 3, 4, Coin);
    Place(g, 3, 5, Coin);
    Place(g, 4, 5, Coin);
    Place(g, 4, 3, Coin);
    Place(g, 6, 4, Obstacle);
    Place(g, 8, 4, End);
    var rows := Rows(g);
    l := Level(FaseName(4), rows, Pos(1, 4), Dir(1, 0), Inventory(2, 0, 0),
      [], [], Some(0), Some(CoinsCount(rows)), None, None, None);
  }

  /** Guarda do Portão. */
  method Fase5() returns (l: Level)
    ensures BuiltinShape(l) && l.name == FaseName(5)
  {
    var g := MakeGrid();
    Place(g, 1, 6, Start);
    Place(g, 2, 6, Coin);
    Place(g, 3, 6, Key);
    Place(g, 5, 5, Obstacle);
    Place(g, 5, 7, Obstacle);
    Place(g, 6, 6, Gate);
    Place(g, 8, 6, End);
    var rows := Rows(g);
    l := Level(FaseName(5), rows, Pos(1, 6), Dir(1, 0), Inventory(1, 1, 0),
      [], [], Some(0), Some(CoinsCount(rows)), None, None, None);
  }

  /** Salto Quântico. */
  method Fase6() returns (l: Level)
    ensures BuiltinShape(l) && l.name == FaseName(6)
  {
    var g := MakeGrid();
    Place(g, 1, 1, Start);
    Place(g, 4, 1, TeleporterTile);
    Place(g, 8, 3, TeleporterTile);
    Place(g, 8, 5, TeleporterTile);
    Place(g, 2, 8, TeleporterTile);
    Place(g, 9, 3, Coin);
    Place(g, 8, 4, Coin);
    Place(g, 9, 8, End);
    var tp0in := Teleporter(0, 4, 1, In, Dir(0, 1));
    var tp0out := Teleporter(0, 8, 3, Out, Dir(1, 0));
    var tp1in := Teleporter(1, 8, 5, In, Dir(0, 1));
    var tp1out := Teleporter(1, 2, 8, Out, Dir(0, -1));
    TwoPairsPaired(tp0in, tp0out, tp1in, tp1out);
    var rows := Rows(g);
    OnTeleporterCellsOfFour(rows, tp0in, tp0out, tp1in, tp1out);
    l := Level(FaseName(6), rows, Pos(1, 1), Dir(1, 0), Inventory(2, 1, 0),
      [tp0in, tp0out, tp1in, tp1out], [], Some(0), Some(CoinsCount(rows)), None, None, None);
  }

  /** Piso Impulsor. */
  method Fase7() returns (l: Level)
    ensures BuiltinShape(l) && l.name == FaseName(7)
  {
    var g := MakeGrid();
    Place(g, 2, 2, Start);
    Place(g, 3, 2, Coin);
    Place(g, 4, 3, Key);
    Place(g, 6, 2, Gate);
    Place(g, 8, 2, End);
    var rows := Rows(g);
    l := Level(FaseName(7), rows, Pos(2, 2), Dir(1, 0), Inventory(1, 0, 1),
      [], [ForceTile(4, 2, RotatorCw), ForceTile(5, 2, Mirror)], Some(0), Some(CoinsCount(rows)), None, None, None);
  }

  /** Rede de Portais. */
  method Fase8() returns (l: Level)
    ensures BuiltinShape(l) && l.name == FaseName(8)
  {
    var g := MakeGrid();
    Place(g, 2, 2, Start);
    Place(g, 3, 2, TeleporterTile);
    Place(g, 6, 6, TeleporterTile);
    Place(g, 7, 2, TeleporterTile);
    Place(g, 2, 7, TeleporterTile);
    Place(g, 5, 5, Obstacle);
    Place(g, 6, 5, Obstacle);
    Place(g, 7, 5, Obstacle);
    Place(g, 6, 7, Coin);
    Place(g, 3, 7, Coin);
    Place(g, 8, 7, End);
    var tp0in := Teleporter(0, 3, 2, In, Dir(-1, 0));
    var tp0out := Teleporter(0, 6, 6, Out, Dir(-1, 0));
    var tp1in := Teleporter(1, 7, 2, In, Dir(0, 1));
    var tp1out := Teleporter(1, 2, 7, Out, Dir(0, -1));
    TwoPairsPaired(tp0in, tp0out, tp1in, tp1out);
    var rows := Rows(g);
    OnTeleporterCellsOfFour(rows, tp0in, tp0out, tp1in, tp1out);
    l := Level(FaseName(8), rows, Pos(2, 2), Dir(1, 0), Inventory(1, 1, 0),
      [tp0in, tp0out, tp1in, tp1out], [], Some(0), Some(CoinsCount(rows)), None, None, None);
  }

  /** Jogo de Espelhos. */
  method Fase9() returns (l: Level)
    ensures BuiltinShape(l) && l.name == FaseName(9)
  {
    var g := MakeGrid();
    Place(g, 2, 4, Start);
    Place(g, 3, 3, Coin);
    Place(g, 3, 5, Coin);
    Place(g, 5, 3, Coin);
    Place(g, 5, 5, Coin);
    Place(g, 4, 4, Coin);
    Place(g, 8, 4, End);
    var rows := Rows(g);
    l := Level(FaseName(9), rows, Pos(2, 4), Dir(1, 0), Inventory(0, 0, 3),
      [], [], Some(0), Some(CoinsCount(rows)), None, None, None);
  }

  /** Travessia Complexa. */
  method Fase10() returns (l: Level)
    ensures BuiltinShape(l) && l.name == FaseName(10)
  {
    var g := MakeGrid();
    Place(g, 1, 1, Start);
    Place(g, 2, 1, Coin);
    Place(g, 2, 2, Coin);
    Place(g, 2, 3, Coin);
    Place(g, 5, 5, Obstacle);
    Place(g, 6, 6, Gate);
    Place(g, 3, 4, Key);
    Place(g, 4, 4, TeleporterTile);
    Place(g, 8, 8, TeleporterTile);
    Place(g, 7, 7, Coin);
    Place(g, 9, 8, End);
    var tp0in := Teleporter(0, 4, 4, In, Dir(0, 1));
    var tp0out := Teleporter(0, 8, 8, Out, Dir(-1, 0));
    OnePairPaired(tp0in, tp0out);
    var rows := Rows(g);
    OnTeleporterCellsOfTwo(rows, tp0in, tp0out);
    l := Level(FaseName(10), rows, Pos(1, 1), Dir(1, 0), Inventory(2, 2, 1),
      [tp0in, tp0out], [ForceTile(7, 7, RotatorCw)], Some(0), Some(CoinsCount(rows)), None, None, None);
  }

  /** Malha Vetorial. */
  method Fase11() returns (l: Level)
    ensures BuiltinShape(l) && l.name == FaseName(11)
  {
    var g := MakeGrid();
    Place(g, 0, 2, Start);
    Place(g, 3, 2, TeleporterTile);
    Place(g, 6, 7, TeleporterTile);
    Place(g, 2, 7, TeleporterTile);
    Place(g, 7, 3, TeleporterTile);
    Place(g, 9, 2, End);
    Place(g, 8, 2, Coin);
    Place(g, 8, 3, Coin);
    Place(g, 7, 2, Obstacle);
    var tp0in := Teleporter(0, 3, 2, In, Dir(1, 0));
    var tp0out := Teleporter(0, 6, 7, Out, Dir(0, -1));
    var tp1in := Teleporter(1, 2, 7, In, Dir(1, 0));
    var tp1out := Teleporter(1, 7, 3, Out, Dir(1, 0));
    TwoPairsPaired(tp0in, tp0out, tp1in, tp1out);
    var rows := Rows(g);
    OnTeleporterCellsOfFour(rows, tp0in, tp0out, tp1in, tp1out);
    l := Level(FaseName(11), rows, Pos(0, 2), Dir(1, 0), Inventory(2, 1, 1),
      [tp0in, tp0out, tp1in, tp1out], [], Some(0), Some(CoinsCount(rows)), None, None, None);
  }

  /** Dupla Tranca. */
  method Fase12() returns (l: Level)
    ensures BuiltinShape(l) && l.name == FaseName(12)
  {
    var g := MakeGrid();
    Place(g, 1, 4, Start);
    Place(g, 1, 6, Key);
    Place(g, 4, 4, Gate);
    Place(g, 6, 6, Gate);
    Place(g, 7, 7, Coin);
    Place(g, 8, 7, Coin);
    Place(g, 9, 7, End);
    var rows := Rows(g);
    l := Level(FaseName(12), rows, Pos(1, 4), Dir(1, 0), Inventory(2, 2, 1),
      [], [ForceTile(5, 5, RotatorCw)], Some(0), Some(CoinsCount(rows)), None, None, None);
  }

  /** Carrossel Óptico. */
  method Fase13() returns (l: Level)
    ensures BuiltinShape(l) && l.name == FaseName(13)
  {
    var g := MakeGrid();
    Place(g, 1, 1, Start);
    Place(g, 8, 8, End);
    Place(g, 2, 2, Coin);
    Place(g, 2, 7, Coin);
    Place(g, 7, 2, Coin);
    var rows := Rows(g);
    l := Level(FaseName(13), rows, Pos(1, 1), Dir(1, 0), Inventory(3, 2, 2),
      [], [ForceTile(4, 4, Mirror), ForceTile(5, 4, RotatorCw), ForceTile(5, 5, RotatorCcw), ForceTile(4, 5, Mirror)], Some(0), Some(CoinsCount(rows)), None, None, None);
  }

  /** Reflexo em Cruz. */
  method Fase14() returns (l: Level)
    ensures BuiltinShape(l) && l.name == FaseName(14)
  {
    var g := MakeGrid();
    Place(g, 1, 5, Start);
    Place(g, 8, 5, End);
    Place(g, 2, 4, Coin);
    Place(g, 2, 6, Coin);
    Place(g, 7, 4, Coin);
    Place(g, 7, 6, Coin);
    var rows := Rows(g);
    l := Level(FaseName(14), rows, Pos(1, 5), Dir(1, 0), Inventory(0, 0, 4),
      [], [], Some(0), Some(CoinsCount(rows)), None, None, None);
  }

  /** Permutação de Portais. */
  method Fase15() returns (l: Level)
    ensures BuiltinShape(l) && l.name == FaseName(15)
  {
    var g := MakeGrid();
    Place(g, 1, 2, Start);
    Place(g, 4, 2, TeleporterTile);
    Place(g, 8, 2, TeleporterTile);
    Place(g, 5, 6, TeleporterTile);
    Place(g, 2, 7, TeleporterTile);
    Place(g, 8, 7, End);
    Place(g, 7, 7, Gate);
    Place(g, 6, 7, Key);
    var tp0in := Teleporter(0, 4, 2, In, Dir(0, 1));
    var tp0out := Teleporter(0, 8, 2, Out, Dir(1, 0));
    var tp1in := Teleporter(1, 5, 6, In, Dir(-1, 0));
    var tp1out := Teleporter(1, 2, 7, Out, Dir(0, -1));
    TwoPairsPaired(tp0in, tp0out, tp1in, tp1out);
    var rows := Rows(g);
    OnTeleporterCellsOfFour(rows, tp0in, tp0out, tp1in, tp1out);
    l := Level(FaseName(15), rows, Pos(1, 2), Dir(1, 0), Inventory(2, 1, 1),
      [tp0in, tp0out, tp1in, tp1out], [], Some(0), Some(CoinsCount(rows)), None, None, None);
  }

  /** Labirinto Denso. */
  method Fase16() returns (l: Level)
    ensures BuiltinShape(l) && l.name == FaseName(16)
    ensures forall i :: 1 <= i < 9 ==> l.grid[i][5] == Obstacle && l.grid[5][i] == Obstacle
  {
    var g := MakeGrid();
    Place(g, 0, 0, Start);
    Place(g, 9, 9, End);
    for i := 1 to 9
      invariant forall y, x :: 0 <= y < N && 0 <= x < N ==>
        g[y, x] == (if x == 5 && 1 <= y < i then Obstacle
                    else if y == 0 && x == 0 then Start
                    else if y == 9 && x == 9 then End
                    else Empty)
    {
      Place(g, 5, i, Obstacle);
    }
    for i := 1 to 9
      invariant forall y, x :: 0 <= y < N && 0 <= x < N ==>
        g[y, x] == (if (x == 5 && 1 <= y < 9) || (y == 5 && 1 <= x < i) then Obstacle
                    else if y == 0 && x == 0 then Start
                    else if y == 9 && x == 9 then End
                    else Empty)
    {
      Place(g, i, 5, Obstacle);
    }
    Place(g, 4, 8, Coin);
    Place(g, 6, 1, Coin);
    var rows := Rows(g);
    l := Level(FaseName(16), rows, Pos(0, 0), Dir(1, 0), Inventory(3, 3, 2),
      [], [], Some(0), Some(CoinsCount(rows)), None, None, None);
  }

  /** Chave Mestra. */
  method Fase17() returns (l: Level)
    ensures BuiltinShape(l) && l.name == FaseName(17)
  {
    var g := MakeGrid();
    Place(g, 2, 2, Start);
    Place(g, 7, 7, End);
    Place(g, 6, 5, Gate);
    Place(g, 2, 6, Key);
    Place(g, 7, 6, Coin);
    var rows := Rows(g);
    l := Level(FaseName(17), rows, Pos(2, 2), Dir(1, 0), Inventory(2, 2, 1),
      [], [ForceTile(5, 4, RotatorCcw)], Some(0), Some(CoinsCount(rows)), None, None, None);
  }

  /** Quadrante de Portais. */
  method Fase18() returns (l: Level)
    ensures BuiltinShape(l) && l.name == FaseName(18)
  {
    var g := MakeGrid();
    Place(g, 1, 1, Start);
    Place(g, 2, 2, TeleporterTile);
    Place(g, 2, 8, TeleporterTile);
    Place(g, 8, 2, TeleporterTile);
    Place(g, 8, 8, TeleporterTile);
    Place(g, 9, 9, End);
    Place(g, 8, 9, Coin);
    var tp0in := Teleporter(0, 2, 2, In, Dir(1, 0));
    var tp0out := Teleporter(0, 2, 8, Out, Dir(1, 0));
    var tp1in := Teleporter(1, 8, 2, In, Dir(-1, 0));
    var tp1out := Teleporter(1, 8, 8, Out, Dir(-1, 0));
    TwoPairsPaired(tp0in, tp0out, tp1in, tp1out);
    var rows := Rows(g);
    OnTeleporterCellsOfFour(rows, tp0in, tp0out, tp1in, tp1out);
    l := Level(FaseName(18), rows, Pos(1, 1), Dir(1, 0), Inventory(3, 2, 1),
      [tp0in, tp0out, tp1in, tp1out], [], Some(0), Some(CoinsCount(rows)), None, None, None);
  }

  /** Colheita em Zigue. */
  method Fase19() returns (l: Level)
    ensures BuiltinShape(l) && l.name == FaseName(19)
    ensures l.totalCoins == Some(8)
    ensures forall y, x :: 0 <= y < N && 0 <= x < N ==> (l.grid[y][x] == Coin <==> ZigzagCoin(x, y))
  {
    var g := MakeGrid();
    Place(g, 0, 3, Start);
    Place(g, 9, 6, End);
    var i := 1;
    while i < 9
      invariant 1 <= i <= 9 && i % 2 == 1
      invariant forall y, x :: 0 <= y < N && 0 <= x < N ==>
        g[y, x] == (if y == 2 && x < i && x % 2 == 1 then Coin
                    else if y == 3 && x == 0 then Start
                    else if y == 6 && x == 9 then End
                    else Empty)
    {
      Place(g, i, 2, Coin);
      i := i + 2;
    }
    i := 2;
    while i < 9
      invariant 2 <= i <= 10 && i % 2 == 0
      invariant forall y, x :: 0 <= y < N && 0 <= x < N ==>
        g[y, x] == (if y == 2 && x % 2 == 1 && x < 9 then Coin
                    else if y == 7 && 2 <= x < i && x % 2 == 0 then Coin
                    else if y == 3 && x == 0 then Start
                    else if y == 6 && x == 9 then End
                    else Empty)
    {
      Place(g, i, 7, Coin);
      i := i + 2;
    }
    var rows := Rows(g);
    ZigzagCoinsCount(rows);
    l := Level(FaseName(19), rows, Pos(0, 3), Dir(1, 0), Inventory(3, 3, 2),
      [], [], Some(0), Some(CoinsCount(rows)), None, None, None);
  }

  /** Grande Desafio. */
  method Fase20() returns (l: Level)
    ensures BuiltinShape(l) && l.name == FaseName(20)
  {
    var g := MakeGrid();
    Place(g, 1, 1, Start);
    Place(g, 8, 8, End);
    Place(g, 6, 8, Gate);
    Place(g, 2, 6, Key);
    Place(g, 4, 6, Coin);
    Place(g, 7, 6, Coin);
    Place(g, 3, 1, TeleporterTile);
    Place(g, 7, 2, TeleporterTile);
    var tp0in := Teleporter(0, 3, 1, In, Dir(0, 1));
    var tp0out := Teleporter(0, 7, 2, Out, Dir(0, 1));
    OnePairPaired(tp0in, tp0out);
    var rows := Rows(g);
    OnTeleporterCellsOfTwo(rows, tp0in, tp0out);
    l := Level(FaseName(20), rows, Pos(1, 1), Dir(1, 0), Inventory(3, 2, 2),
      [tp0in, tp0out], [ForceTile(5, 5, RotatorCcw), ForceTile(7, 7, Mirror)], Some(0), Some(CoinsCount(rows)), None, None, None);
  }

  /** The first `|levels|` builtins, in order. */
  predicate BuiltinPrefix(levels: seq<Level>) {
    forall i :: 0 <= i < |levels| ==>
      && BuiltinShape(levels[i])
      && levels[i].name == FaseName(i + 1)
      && levels[i].origin == Some(Builtin)
      && levels[i].createdBy == Some("Equipe")
  }

  /** The final `map` of levels.ts: every builtin is tagged as such and credited to "Equipe". */
  function MarkBuiltin(l: Level): Level {
    l.(origin := Some(Builtin), createdBy := Some("Equipe"))
  }

  lemma PushKeepsPrefix(levels: seq<Level>, l: Level)
    requires BuiltinPrefix(levels)
    requires BuiltinShape(l) && l.name == FaseName(|levels| + 1)
    ensures BuiltinPrefix(levels + [MarkBuiltin(l)])
  {
    var r := levels + [MarkBuiltin(l)];
    forall i | 0 <= i < |r|
      ensures BuiltinShape(r[i]) && r[i].name == FaseName(i + 1)
      ensures r[i].origin == Some(Builtin) && r[i].createdBy == Some("Equipe")
    {
      if i < |levels| {
        assert r[i] == levels[i];
      }
    }
  }

  /** Levels named after their positions, `Fase 1`, `Fase 2`, …, have distinct names. */
  lemma NamedInOrderDistinct(levels: seq<Level>)
    requires |levels| <= 20
    requires forall i :: 0 <= i < |levels| ==> levels[i].name == FaseName(i + 1)
    ensures forall i, j :: 0 <= i < j < |levels| ==> levels[i].name != levels[j].name
  {
    FaseNamesDistinct();
  }

  /** Builtin level `k`, counting from 1. */
  method Fase(k: nat) returns (l: Level)
    requires 1 <= k <= 20
    ensures BuiltinShape(l) && l.name == FaseName(k)
  {
    if k == 1 {
      l := Fase1();
    } else if k == 2 {
      l := Fase2();
    } else if k == 3 {
      l := Fase3();
    } else if k == 4 {
      l := Fase4();
    } else if k == 5 {
      l := Fase5();
    } else if k == 6 {
      l := Fase6();
    } else if k == 7 {
      l := Fase7();
    } else if k == 8 {
      l := Fase8();
    } else if k == 9 {
      l := Fase9();
    } else if k == 10 {
      l := Fase10();
    } else if k == 11 {
      l := Fase11();
    } else if k == 12 {
      l := Fase12();
    } else if k == 13 {
      l := Fase13();
    } else if k == 14 {
      l := Fase14();
    } else if k == 15 {
      l := Fase15();
    } else if k == 16 {
      l := Fase16();
    } else if k == 17 {
      l := Fase17();
    } else if k == 18 {
      l := Fase18();
    } else if k == 19 {
      l := Fase19();
    } else {
      l := Fase20();
    }
  }

  /**
   * `builtinLevels`: the twenty levels in order, each marked builtin and
   * authored by "Equipe"; their names are pairwise distinct.
   */
  method BuiltinLevels() returns (levels: seq<Level>)
    ensures |levels| == 20
    ensures forall i :: 0 <= i < |levels| ==> BuiltinShape(levels[i]) && levels[i].name == FaseName(i + 1)
    ensures forall i :: 0 <= i < |levels| ==> levels[i].origin == Some(Builtin) && levels[i].createdBy == Some("Equipe")
    ensures forall i, j :: 0 <= i < j < |levels| ==> levels[i].name != levels[j].name
  {
    levels := [];
    for k := 1 to 21
      invariant |levels| == k - 1 && BuiltinPrefix(levels)
    {
      var l := Fase(k);
      PushKeepsPrefix(levels, l);
      levels := levels + [MarkBuiltin(l)];
    }
    NamedInOrderDistinct(levels);
  }

  /** What `PairedFrom` says about each record from `from` on. */
  lemma {:induction false} PairedFromEach(ts: seq<Teleporter>, from: nat, i: nat)
    requires PairedFrom(ts, from)
    requires from <= i < |ts|
    ensures Count(ts[i + 1..], LiesAt(ts[i].x, ts[i].y)) == 0
    ensures Count(ts, RecordOf(ts[i].id, In)) == 1 && Count(ts, RecordOf(ts[i].id, Out)) == 1
    decreases i - from
  {
    if from < i {
      PairedFromEach(ts, from + 1, i);
    }
  }

  /**
   * In a builtin level every teleporter works as a pair: stepping onto an `in`
   * record's cell teleports to an `out` record of the same pair, and stepping
   * onto an `out` record's cell does not teleport.
   */
  lemma BuiltinTeleportersConnect(l: Level, i: nat)
    requires BuiltinShape(l)
    requires i < |l.teleporters|
    ensures var ts := l.teleporters;
      var exit := TeleportExit(ts, ts[i].x, ts[i].y);
      (ts[i].role == In ==> exit.Some? && exit.value.id == ts[i].id && exit.value.role == Out)
      && (ts[i].role == Out ==> exit.None?)
  {
    var ts := l.teleporters;
    forall j | 0 <= j < i
      ensures !LiesAt(ts[i].x, ts[i].y)(ts[j])
    {
      PairedFromEach(ts, 0, j);
      assert ts[j + 1..][i - j - 1] == ts[i];
    }
    FirstMatch(ts, LiesAt(ts[i].x, ts[i].y), i);
    PairedFromEach(ts, 0, i);
  }
}
