/**
 * The editor's palette: the inventory counts the player will get, the
 * selection of what a grid click paints, and the start (or cancellation) of a
 * teleporter pair placement, kept with the force-tile action in the editor's
 * sub-state.
 */
module TilePalette {
  import opened Wrappers
  import opened Types

  /** A pair placement under way: the id the pair will carry and the end placed next. */
  datatype Placement = Placement(pairId: int, stage: Role)

  /** `EditorSubState`: the pair placement, if any, and the action of new force tiles. */
  datatype SubState = SubState(teleporterPlacement: Option<Placement>, selectedForceTileAction: ToolType)

  /** The sub-state the editor starts with. */
  const InitialSubState := SubState(None, RotatorCw)

  /**
   * `handleInventoryChange`: the tool's count becomes the amount, or 0 for a
   * negative amount; nothing else of the level changes.
   */
  function InventoryChange(level: Level, tool: ToolType, amount: int): (r: Level)
    ensures r.inventory.Get(tool) == if amount < 0 then 0 else amount
    ensures forall k :: k != tool ==> r.inventory.Get(k) == level.inventory.Get(k)
    ensures r == level.(inventory := r.inventory)
  {
    level.(inventory := level.inventory.With(tool, if amount < 0 then 0 else amount))
  }

  /** A later change of the same tool overrides an earlier one; changes of different tools commute. */
  lemma InventoryChangesCompose(level: Level, t: ToolType, a: int, u: ToolType, b: int)
    ensures t == u ==> InventoryChange(InventoryChange(level, t, a), u, b) == InventoryChange(level, u, b)
    ensures t != u ==> InventoryChange(InventoryChange(level, t, a), u, b) == InventoryChange(InventoryChange(level, u, b), t, a)
  {
    var r1 := InventoryChange(InventoryChange(level, t, a), u, b);
    var r2 := if t == u then InventoryChange(level, u, b) else InventoryChange(InventoryChange(level, u, b), t, a);
    InventoryEquality(r1.inventory, r2.inventory);
  }

  /** Two inventories that agree on every tool are equal. */
  lemma InventoryEquality(i: Inventory, j: Inventory)
    requires forall k :: i.Get(k) == j.Get(k)
    ensures i == j
  {
    assert i.Get(RotatorCw) == j.Get(RotatorCw);
    assert i.Get(RotatorCcw) == j.Get(RotatorCcw);
    assert i.Get(Mirror) == j.Get(Mirror);
  }

  /**
   * `handleTeleporterClick`: cancels a placement under way; otherwise starts
   * one whose pair id is half the number of teleporter records, placing the
   * `in` end first, and clears the palette selection.
   */
  function TeleporterClick(sub: SubState, selection: Option<PaletteSelection>, teleporters: seq<Teleporter>)
    : (r: (SubState, Option<PaletteSelection>))
    ensures sub.teleporterPlacement.Some? ==> r.0.teleporterPlacement.None? && r.1 == selection
    ensures sub.teleporterPlacement.None? ==>
      r.0.teleporterPlacement == Some(Placement(|teleporters| / 2, In)) && r.1.None?
    ensures r.0.selectedForceTileAction == sub.selectedForceTileAction
  {
    if sub.teleporterPlacement.Some? then (sub.(teleporterPlacement := None), selection)
    else (sub.(teleporterPlacement := Some(Placement(|teleporters| / 2, In))), None)
  }

  /** Clicking the button twice cancels what the first click started. */
  lemma TeleporterClickTwiceCancels(sub: SubState, selection: Option<PaletteSelection>, teleporters: seq<Teleporter>)
    requires sub.teleporterPlacement.None?
    ensures TeleporterClick(TeleporterClick(sub, selection, teleporters).0, None, teleporters) == (sub, None)
  {
  }

  /** A palette button: choosing the current selection again clears it. */
  function Toggle(selection: Option<PaletteSelection>, choice: PaletteSelection): (r: Option<PaletteSelection>)
    ensures r == Some(choice) <==> selection != Some(choice)
    ensures r.None? <==> selection == Some(choice)
  {
    if selection == Some(choice) then None else Some(choice)
  }

  /** Pressing the same button twice restores the selection when it was that button or nothing. */
  lemma ToggleTwice(selection: Option<PaletteSelection>, choice: PaletteSelection)
    requires selection.None? || selection == Some(choice)
    ensures Toggle(Toggle(selection, choice), choice) == selection
  {
  }

  /** The force-tile action selector. */
  function SelectForceAction(sub: SubState, action: ToolType): (r: SubState)
    ensures r.selectedForceTileAction == action && r.teleporterPlacement == sub.teleporterPlacement
  {
    sub.(selectedForceTileAction := action)
  }
}
