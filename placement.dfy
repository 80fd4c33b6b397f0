/**
 * Placing and removing the player's tools while a level is in SETUP: a click
 * on a cell that holds a tool takes it back; a click on a free cell places
 * the selected tool if the level's inventory still has one of that kind.
 */
module Placement {
  import opened Wrappers
  import opened Seqs
  import opened Types

  /** The tools lying on (x, y). */
  function OnCell(x: int, y: int): PlacedTool -> bool {
    (t: PlacedTool) => t.x == x && t.y == y
  }

  /** The tools of one kind. */
  function OfKind(kind: ToolType): PlacedTool -> bool {
    (t: PlacedTool) => t.kind == kind
  }

  /** How many tools of `kind` are on the board. */
  function UsedCount(tools: seq<PlacedTool>, kind: ToolType): nat {
    Count(tools, OfKind(kind))
  }

  /** No two placed tools share a cell. */
  predicate AtMostOnePerCell(tools: seq<PlacedTool>) {
    forall i, j :: 0 <= i < j < |tools| ==> !(tools[i].x == tools[j].x && tools[i].y == tools[j].y)
  }

  /** No kind is used more often than the inventory allows. */
  predicate WithinInventory(tools: seq<PlacedTool>, inv: Inventory) {
    forall kind: ToolType :: UsedCount(tools, kind) <= inv.Get(kind)
  }

  /** The tools after a SETUP click on (x, y) with `selected` chosen in the inventory bar. */
  function Toggle(tools: seq<PlacedTool>, x: int, y: int, selected: Option<ToolType>, inv: Inventory): (r: seq<PlacedTool>)
    // a tool already on the cell is taken back, and only that one
    ensures (exists i :: 0 <= i < |tools| && OnCell(x, y)(tools[i])) ==>
      |r| == |tools| - 1 && multiset(r) + multiset{Find(tools, OnCell(x, y)).value} == multiset(tools)
    // a free cell receives the selected tool exactly when one of that kind is left
    ensures (forall i :: 0 <= i < |tools| ==> !OnCell(x, y)(tools[i])) ==>
      if selected.Some? && UsedCount(tools, selected.value) < inv.Get(selected.value)
      then r == tools + [PlacedTool(x, y, selected.value)]
      else r == tools
  {
    match FindIndex(tools, OnCell(x, y))
    case Some(i) =>
      assert tools == tools[..i] + [tools[i]] + tools[i + 1..];
      RemoveAt(tools, i)
    case None =>
      if selected.Some? && inv.Get(selected.value) > UsedCount(tools, selected.value)
      then tools + [PlacedTool(x, y, selected.value)]
      else tools
  }

  /** Toggling keeps at most one tool per cell. */
  lemma ToggleKeepsOnePerCell(tools: seq<PlacedTool>, x: int, y: int, selected: Option<ToolType>, inv: Inventory)
    requires AtMostOnePerCell(tools)
    ensures AtMostOnePerCell(Toggle(tools, x, y, selected, inv))
  {
    var r := Toggle(tools, x, y, selected, inv);
    match FindIndex(tools, OnCell(x, y))
    case Some(i) =>
      forall a, b | 0 <= a < b < |r|
        ensures !(r[a].x == r[b].x && r[a].y == r[b].y)
      {
        var a' := if a < i then a else a + 1;
        var b' := if b < i then b else b + 1;
        assert r[a] == tools[a'] && r[b] == tools[b'] && a' < b';
      }
    case None =>
  }

  /** Toggling never takes a kind beyond its inventory count. */
  lemma ToggleKeepsWithinInventory(tools: seq<PlacedTool>, x: int, y: int, selected: Option<ToolType>, inv: Inventory)
    requires WithinInventory(tools, inv)
    ensures WithinInventory(Toggle(tools, x, y, selected, inv), inv)
  {
    match FindIndex(tools, OnCell(x, y))
    case Some(i) =>
      forall kind: ToolType
        ensures UsedCount(RemoveAt(tools, i), kind) <= inv.Get(kind)
      {
        CountRemoveAt(tools, i, OfKind(kind));
      }
    case None =>
      if selected.Some? && inv.Get(selected.value) > UsedCount(tools, selected.value) {
        var t := PlacedTool(x, y, selected.value);
        forall kind: ToolType
          ensures UsedCount(tools + [t], kind) <= inv.Get(kind)
        {
          CountAppend(tools, t, OfKind(kind));
        }
      }
  }

  /** After a click on an occupied cell no tool is left on it (one tool per cell). */
  lemma ToggleClearsOccupiedCell(tools: seq<PlacedTool>, x: int, y: int, selected: Option<ToolType>, inv: Inventory)
    requires AtMostOnePerCell(tools)
    requires exists i :: 0 <= i < |tools| && OnCell(x, y)(tools[i])
    ensures forall j :: 0 <= j < |Toggle(tools, x, y, selected, inv)| ==> !OnCell(x, y)(Toggle(tools, x, y, selected, inv)[j])
  {
    var r := Toggle(tools, x, y, selected, inv);
    var i := FindIndex(tools, OnCell(x, y)).value;
    forall j | 0 <= j < |r|
      ensures !OnCell(x, y)(r[j])
    {
      if j < i {
        assert r[j] == tools[j];
      } else {
        assert r[j] == tools[j + 1];
      }
    }
  }

  /** A second click on the cell where a tool was just placed takes it back: the board is as before. */
  lemma PlaceThenRemoveRestores(tools: seq<PlacedTool>, x: int, y: int, selected: Option<ToolType>, inv: Inventory)
    requires forall i :: 0 <= i < |tools| ==> !OnCell(x, y)(tools[i])
    requires selected.Some? && UsedCount(tools, selected.value) < inv.Get(selected.value)
    ensures Toggle(Toggle(tools, x, y, selected, inv), x, y, selected, inv) == tools
  {
    var t := PlacedTool(x, y, selected.value);
    var r := tools + [t];
    assert FindIndex(r, OnCell(x, y)) == Some(|tools|) by {
      FirstMatch(r, OnCell(x, y), |tools|);
    }
    assert RemoveAt(r, |tools|) == tools;
  }
}
