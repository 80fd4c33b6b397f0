/**
 * The level browser's unlock rule: the first level is always open, and each
 * later one opens once the level before it has been completed; the play
 * button of a locked level does nothing.
 */
module LevelBrowser {
  import opened Wrappers
  import opened Types
  import opened LevelList

  /** Level `i` is locked when it is not the first and the one before it is not completed. */
  predicate Locked(levels: seq<Level>, i: nat)
    requires i < |levels|
  {
    i > 0 && !Completed(levels[i - 1])
  }

  /** The play button of level `i`: the level handed to `onPlay`, or nothing when it is locked. */
  function PlayButton(levels: seq<Level>, i: nat): (r: Option<Level>)
    requires i < |levels|
    ensures r.Some? <==> i == 0 || Completed(levels[i - 1])
    ensures r.Some? ==> r.value == levels[i]
  {
    if Locked(levels, i) then None else Some(levels[i])
  }

  /**
   * Winning level `i` (with a non-zero clock reading) in a list without
   * repeated names unlocks level `i + 1`, and no later win locks it again.
   */
  lemma WinUnlocksNext(levels: seq<Level>, i: nat, coins: nat, now: nat, coins': nat, now': nat)
    requires DistinctNames(levels) && i + 1 < |levels| && now != 0
    ensures var once := ReplaceByName(levels, WinUpdate(levels[i], coins, now));
      && !Locked(once, i + 1)
      && !Locked(ReplaceByName(once, WinUpdate(once[i], coins', now')), i + 1)
  {
    var once := ReplaceByName(levels, WinUpdate(levels[i], coins, now));
    assert once[i] == WinUpdate(levels[i], coins, now);
    var twice := ReplaceByName(once, WinUpdate(once[i], coins', now'));
    assert twice[i] == WinUpdate(once[i], coins', now');
  }

  /** A win on one of the list's own levels never locks a level that was open. */
  lemma WinNeverLocks(levels: seq<Level>, k: nat, coins: nat, now: nat, j: nat)
    requires DistinctNames(levels) && k < |levels| && j < |levels| && !Locked(levels, j)
    ensures !Locked(ReplaceByName(levels, WinUpdate(levels[k], coins, now)), j)
  {
    if j > 0 {
      var r := ReplaceByName(levels, WinUpdate(levels[k], coins, now));
      if j - 1 != k {
        assert levels[j - 1].name != levels[k].name;
        assert r[j - 1] == levels[j - 1];
      }
    }
  }
}
