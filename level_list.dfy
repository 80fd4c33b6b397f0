/**
 * The list of levels the app keeps (`savedLevels`) and the operations that
 * rebuild it: the name-keyed merge of stored and builtin levels at start-up,
 * saving from the editor, deleting, the update a win makes, and the blank
 * level the editor starts from. Levels are keyed by name throughout.
 */
module LevelList {
  import opened Wrappers
  import opened Seqs
  import opened Types
  import opened Levels

  /** The side of the editor's grid. */
  const EditorGridSize: nat := 10

  function Named(n: string): Level -> bool {
    (l: Level) => l.name == n
  }

  function NotNamed(n: string): Level -> bool {
    (l: Level) => l.name != n
  }

  /** A lookup by name: the first level with that name. */
  function Lookup(ls: seq<Level>, n: string): Option<Level> {
    Find(ls, Named(n))
  }

  function Names(ls: seq<Level>): set<string> {
    set l | l in ls :: l.name
  }

  predicate DistinctNames(ls: seq<Level>) {
    forall i, j :: 0 <= i < j < |ls| ==> ls[i].name != ls[j].name
  }

  function Max(a: nat, b: nat): nat {
    if a >= b then a else b
  }

  /** A level counts as completed when `completedAt` is truthy: present and not 0. */
  predicate Completed(l: Level) {
    l.completedAt.Some? && l.completedAt.value != 0
  }

  /** In a list without repeated names, a lookup finds exactly the level of that name, if any. */
  lemma LookupIs(ls: seq<Level>, n: string, v: Option<Level>)
    requires DistinctNames(ls)
    requires v.None? ==> n !in Names(ls)
    requires v.Some? ==> v.value in ls && v.value.name == n
    ensures Lookup(ls, n) == v
  {
    if v.Some? {
      var i :| 0 <= i < |ls| && ls[i] == v.value;
      FirstMatch(ls, Named(n), i);
    } else {
      forall j | 0 <= j < |ls|
        ensures !Named(n)(ls[j])
      {
        assert ls[j] in ls;
      }
    }
  }

  /** A lookup finds a level exactly when the name is present. */
  lemma LookupFindsNames(ls: seq<Level>, n: string)
    ensures Lookup(ls, n).Some? <==> n in Names(ls)
  {
    if n in Names(ls) {
      var l :| l in ls && l.name == n;
      var i :| 0 <= i < |ls| && ls[i] == l;
      assert Named(n)(ls[i]);
    }
  }

  // ---------------------------------------------------------------------
  // The start-up merge (a JavaScript Map keyed by name)
  // ---------------------------------------------------------------------

  /**
   * `map.set(l.name, l)` on a map kept as its entries in insertion order: an
   * existing key keeps its place and takes the new value, a new key goes last.
   */
  function Put(m: seq<Level>, l: Level): seq<Level> {
    match FindIndex(m, Named(l.name))
    case Some(k) => m[k := l]
    case None => m + [l]
  }

  /** `new Map(ls.map(l => [l.name, l]))`, as its entries. */
  function Keyed(ls: seq<Level>): seq<Level> {
    if ls == [] then [] else Put(Keyed(ls[..|ls| - 1]), ls[|ls| - 1])
  }

  /** The last level of `ls` named `n`. */
  function LastNamed(ls: seq<Level>, n: string): Option<Level> {
    if ls == [] then None
    else if ls[|ls| - 1].name == n then Some(ls[|ls| - 1])
    else LastNamed(ls[..|ls| - 1], n)
  }

  /** `if (!byName.has(l.name)) byName.set(l.name, l)`. */
  function PutIfAbsent(m: seq<Level>, l: Level): seq<Level> {
    if Lookup(m, l.name).Some? then m else m + [l]
  }

  /** `PutIfAbsent` for each of `bs`, in order. */
  function PutAllAbsent(m: seq<Level>, bs: seq<Level>): seq<Level> {
    if bs == [] then m else PutIfAbsent(PutAllAbsent(m, bs[..|bs| - 1]), bs[|bs| - 1])
  }

  /** The stored levels keyed by name, then every builtin whose name is not among them. */
  function Merged(stored: seq<Level>, builtins: seq<Level>): seq<Level> {
    PutAllAbsent(Keyed(stored), builtins)
  }

  /** The merge of the start-up effect: one pass over the builtins. */
  method MergeLevels(stored: seq<Level>, builtins: seq<Level>) returns (merged: seq<Level>)
    ensures merged == Merged(stored, builtins)
  {
    var byName := Keyed(stored);
    for i := 0 to |builtins|
      invariant byName == PutAllAbsent(Keyed(stored), builtins[..i])
    {
      assert builtins[..i + 1][..i] == builtins[..i];
      var lvl := builtins[i];
      if Lookup(byName, lvl.name).None? {
        byName := byName + [lvl];
      }
    }
    assert builtins[..|builtins|] == builtins;
    merged := byName;
  }

  /** Setting a name keeps a map without repeated names, adds the name and changes only its lookup. */
  lemma PutFacts(m: seq<Level>, l: Level)
    requires DistinctNames(m)
    ensures DistinctNames(Put(m, l))
    ensures Names(Put(m, l)) == Names(m) + {l.name}
    ensures Lookup(Put(m, l), l.name) == Some(l)
    ensures forall n :: n != l.name ==> Lookup(Put(m, l), n) == Lookup(m, n)
  {
    match FindIndex(m, Named(l.name))
    case Some(k) =>
      PutExistingFacts(m, l, k);
    case None =>
      var r := m + [l];
      AppendNewName(m, l);
      LookupIs(r, l.name, Some(l));
      forall n | n != l.name
        ensures Lookup(r, n) == Lookup(m, n)
      {
        FindAppend(m, l, Named(n));
      }
  }

  /** `PutFacts` for a name the map holds at position `k`: the entry there takes the new value. */
  lemma PutExistingFacts(m: seq<Level>, l: Level, k: nat)
    requires DistinctNames(m)
    requires k < |m| && m[k].name == l.name
    ensures DistinctNames(m[k := l])
    ensures Names(m[k := l]) == Names(m) + {l.name}
    ensures Lookup(m[k := l], l.name) == Some(l)
    ensures forall n :: n != l.name ==> Lookup(m[k := l], n) == Lookup(m, n)
  {
    var r := m[k := l];
    assert forall i :: 0 <= i < |r| ==> r[i].name == m[i].name;
    assert m[k] in m;
    forall x | x in Names(m) ensures x in Names(r) {
      var y :| y in m && y.name == x;
      var i :| 0 <= i < |m| && m[i] == y;
      assert r[i].name == x;
    }
    forall x | x in Names(r) ensures x in Names(m) + {l.name} {
      var y :| y in r && y.name == x;
      var i :| 0 <= i < |r| && r[i] == y;
      if i != k {
        assert m[i] in m;
      }
    }
    LookupIs(r, l.name, Some(l));
    forall n | n != l.name
      ensures Lookup(r, n) == Lookup(m, n)
    {
      PutExistingLookup(m, l, k, n);
    }
  }

  /** Overwriting the entry of another name leaves the lookup of `n` as it was. */
  lemma PutExistingLookup(m: seq<Level>, l: Level, k: nat, n: string)
    requires k < |m| && m[k].name == l.name && n != l.name
    requires DistinctNames(m) && DistinctNames(m[k := l])
    ensures Lookup(m[k := l], n) == Lookup(m, n)
  {
    var r := m[k := l];
    LookupFindsNames(m, n);
    if n in Names(m) {
      var y :| y in m && y.name == n;
      var i :| 0 <= i < |m| && m[i] == y;
      assert r[i] == y;
      LookupIs(m, n, Some(y));
      LookupIs(r, n, Some(y));
    } else {
      forall x | x in r ensures x.name != n {
        var i :| 0 <= i < |r| && r[i] == x;
        if i != k {
          assert m[i] in m;
        }
      }
      LookupIs(m, n, None);
      LookupIs(r, n, None);
    }
  }

  /** The map built from `ls` has each name of `ls` once, holding the last level of that name. */
  lemma {:induction false} KeyedFacts(ls: seq<Level>)
    ensures DistinctNames(Keyed(ls))
    ensures Names(Keyed(ls)) == Names(ls)
    ensures forall n :: Lookup(Keyed(ls), n) == LastNamed(ls, n)
  {
    if ls == [] {
      assert Names(ls) == {};
      forall n ensures Lookup(Keyed(ls), n) == LastNamed(ls, n) {
        LookupIs(Keyed(ls), n, None);
      }
    } else {
      var front, last := ls[..|ls| - 1], ls[|ls| - 1];
      assert ls == front + [last];
      KeyedFacts(front);
      PutFacts(Keyed(front), last);
      assert Names(ls) == Names(front) + {last.name};
    }
  }

  /** The names of a list with one more level. */
  lemma NamesAppend(ls: seq<Level>, l: Level)
    ensures Names(ls + [l]) == Names(ls) + {l.name}
  {
    forall x | x in Names(ls) ensures x in Names(ls + [l]) {
      var y :| y in ls && y.name == x;
      assert y in ls + [l];
    }
  }

  /** Appending a level whose name is new keeps the names distinct and adds that name. */
  lemma AppendNewName(ls: seq<Level>, l: Level)
    requires DistinctNames(ls) && Lookup(ls, l.name).None?
    ensures DistinctNames(ls + [l]) && Names(ls + [l]) == Names(ls) + {l.name}
  {
    LookupFindsNames(ls, l.name);
    var r := ls + [l];
    forall i, j | 0 <= i < j < |r| ensures r[i].name != r[j].name {
      if j == |ls| {
        assert r[i] == ls[i] && ls[i] in ls;
      } else {
        assert r[i] == ls[i] && r[j] == ls[j];
      }
    }
  }

  /**
   * Adding the absent ones of `bs` to a map without repeated names keeps `m`
   * as a prefix and repeats no name.
   */
  lemma {:induction false} PutAllAbsentShape(m: seq<Level>, bs: seq<Level>)
    requires DistinctNames(m)
    ensures DistinctNames(PutAllAbsent(m, bs))
    ensures |m| <= |PutAllAbsent(m, bs)| && PutAllAbsent(m, bs)[..|m|] == m
  {
    if bs != [] {
      var front, b := bs[..|bs| - 1], bs[|bs| - 1];
      PutAllAbsentShape(m, front);
      var r0 := PutAllAbsent(m, front);
      if Lookup(r0, b.name).None? {
        AppendNewName(r0, b);
        assert (r0 + [b])[..|m|] == r0[..|m|];
      }
    }
  }

  /** Adding the absent ones of `bs` adds exactly the names of `bs` that are new. */
  lemma {:induction false} PutAllAbsentNames(m: seq<Level>, bs: seq<Level>)
    ensures Names(PutAllAbsent(m, bs)) == Names(m) + Names(bs)
  {
    if bs == [] {
      assert Names(bs) == {};
    } else {
      var front, b := bs[..|bs| - 1], bs[|bs| - 1];
      assert bs == front + [b];
      NamesAppend(front, b);
      PutAllAbsentNames(m, front);
      var r0 := PutAllAbsent(m, front);
      LookupFindsNames(r0, b.name);
      NamesAppend(r0, b);
    }
  }

  /** A lookup after adding the absent ones of `bs` answers from `m` first and from `bs` otherwise. */
  lemma {:induction false} PutAllAbsentLookup(m: seq<Level>, bs: seq<Level>, n: string)
    ensures Lookup(PutAllAbsent(m, bs), n) == (if Lookup(m, n).Some? then Lookup(m, n) else Lookup(bs, n))
  {
    if bs == [] {
      LookupFindsNames(bs, n);
    } else {
      var front, b := bs[..|bs| - 1], bs[|bs| - 1];
      assert bs == front + [b];
      PutAllAbsentLookup(m, front, n);
      PutAllAbsentLookup(m, front, b.name);
      var r0 := PutAllAbsent(m, front);
      FindAppend(front, b, Named(n));
      if Lookup(r0, b.name).None? {
        FindAppend(r0, b, Named(n));
      }
    }
  }

  /**
   * The merged list has no repeated name and holds every stored and every
   * builtin name; a stored level wins over a builtin of the same name (the
   * last stored one if the store repeats a name), and the stored levels come
   * first, in the order their names first appear.
   */
  lemma MergedFacts(stored: seq<Level>, builtins: seq<Level>)
    ensures DistinctNames(Merged(stored, builtins))
    ensures Names(Merged(stored, builtins)) == Names(stored) + Names(builtins)
    ensures forall n ::
      Lookup(Merged(stored, builtins), n) == (if LastNamed(stored, n).Some? then LastNamed(stored, n) else Lookup(builtins, n))
    ensures |Keyed(stored)| <= |Merged(stored, builtins)|
    ensures Merged(stored, builtins)[..|Keyed(stored)|] == Keyed(stored)
  {
    KeyedFacts(stored);
    PutAllAbsentShape(Keyed(stored), builtins);
    PutAllAbsentNames(Keyed(stored), builtins);
    forall n ensures Lookup(Merged(stored, builtins), n) ==
      (if LastNamed(stored, n).Some? then LastNamed(stored, n) else Lookup(builtins, n))
    {
      PutAllAbsentLookup(Keyed(stored), builtins, n);
    }
  }

  /** Without repeated names, keying a list by name gives the list back. */
  lemma {:induction false} KeyedOfDistinct(ls: seq<Level>)
    requires DistinctNames(ls)
    ensures Keyed(ls) == ls
  {
    if ls != [] {
      var front, last := ls[..|ls| - 1], ls[|ls| - 1];
      KeyedOfDistinct(front);
      assert FindIndex(front, Named(last.name)).None?;
      assert front + [last] == ls;
    }
  }

  /** Nothing is added when every name is already present. */
  lemma {:induction false} PutAllAbsentPresent(m: seq<Level>, bs: seq<Level>)
    requires Names(bs) <= Names(m)
    ensures PutAllAbsent(m, bs) == m
  {
    if bs != [] {
      var front, b := bs[..|bs| - 1], bs[|bs| - 1];
      assert bs == front + [b];
      assert Names(front) <= Names(bs);
      PutAllAbsentPresent(m, front);
      assert b in bs;
      LookupFindsNames(m, b.name);
    }
  }

  /** Merging the builtins into the stored result of a merge changes nothing. */
  lemma MergeIsIdempotent(stored: seq<Level>, builtins: seq<Level>)
    ensures Merged(Merged(stored, builtins), builtins) == Merged(stored, builtins)
  {
    var m := Merged(stored, builtins);
    MergedFacts(stored, builtins);
    KeyedOfDistinct(m);
    PutAllAbsentPresent(m, builtins);
  }

  // ---------------------------------------------------------------------
  // Save
  // ---------------------------------------------------------------------

  /** The characters JavaScript's `trim` removes: white space and line terminators. */
  predicate IsJsSpace(c: char) {
    || c == '\t' || c == '\n' || c == '\r' || c == '\U{000B}' || c == '\U{000C}'
    || c == ' ' || c == '\U{00A0}' || c == '\U{1680}' || ('\U{2000}' <= c <= '\U{200A}')
    || c == '\U{2028}' || c == '\U{2029}' || c == '\U{202F}' || c == '\U{205F}'
    || c == '\U{3000}' || c == '\U{FEFF}'
  }

  function TrimStart(s: string): (r: string)
    ensures |r| <= |s| && r == s[|s| - |r|..]
    ensures r != [] ==> !IsJsSpace(r[0])
    ensures forall i :: 0 <= i < |s| - |r| ==> IsJsSpace(s[i])
  {
    if s != [] && IsJsSpace(s[0]) then TrimStart(s[1..]) else s
  }

  function TrimEnd(s: string): (r: string)
    ensures |r| <= |s| && r == s[..|r|]
    ensures r != [] ==> !IsJsSpace(r[|r| - 1])
    ensures forall i :: |r| <= i < |s| ==> IsJsSpace(s[i])
  {
    if s != [] && IsJsSpace(s[|s| - 1]) then TrimEnd(s[..|s| - 1]) else s
  }

  /** `s.trim()`. */
  function Trim(s: string): string {
    TrimEnd(TrimStart(s))
  }

  /** A name trims to nothing exactly when it is all white space. */
  lemma TrimsToEmpty(s: string)
    ensures Trim(s) == "" <==> forall i :: 0 <= i < |s| ==> IsJsSpace(s[i])
  {
    var t := TrimStart(s);
    assert t != [] ==> t[0] == s[|s| - |t|];
  }

  /**
   * The level `handleSaveLevel` stores: the editor's level with `totalCoins`
   * recounted from its grid and the better of its high score and this run's coins.
   */
  function ToSave(editor: Level, runCoins: nat): (r: Level)
    ensures r.totalCoins == Some(|CoinCells(editor.grid)|)
    ensures r.highScore.Some? && r.highScore.value >= runCoins && r.highScore.value >= editor.highScore.GetOr(0)
    ensures r.highScore.value == runCoins || r.highScore.value == editor.highScore.GetOr(0)
    ensures r == editor.(totalCoins := r.totalCoins, highScore := r.highScore)
  {
    CoinsCountIsCoinCells(editor.grid);
    editor.(totalCoins := Some(CoinsCount(editor.grid)), highScore := Some(Max(editor.highScore.GetOr(0), runCoins)))
  }

  /**
   * `handleSaveLevel`: refused (`None`) for a blank name; otherwise every
   * level of that name is dropped and the new one goes last.
   */
  function Save(saved: seq<Level>, editor: Level, runCoins: nat): (r: Option<seq<Level>>)
    ensures r.None? <==> Trim(editor.name) == ""
    ensures r.Some? ==> |r.value| > 0 && r.value[|r.value| - 1] == ToSave(editor, runCoins)
    ensures r.Some? ==> forall l :: l in r.value ==> l in saved || l == ToSave(editor, runCoins)
    ensures r.Some? ==> r.value == Filter(saved, NotNamed(editor.name)) + [ToSave(editor, runCoins)]
  {
    if Trim(editor.name) == "" then None
    else Some(Filter(saved, NotNamed(editor.name)) + [ToSave(editor, runCoins)])
  }

  /**
   * After a save the name finds the saved level, every other name finds what
   * it found before, and a list without repeated names keeps none.
   */
  lemma SaveFacts(saved: seq<Level>, editor: Level, runCoins: nat, n: string)
    requires Save(saved, editor, runCoins).Some?
    ensures Lookup(Save(saved, editor, runCoins).value, editor.name) == Some(ToSave(editor, runCoins))
    ensures n != editor.name ==> Lookup(Save(saved, editor, runCoins).value, n) == Lookup(saved, n)
    ensures Names(Save(saved, editor, runCoins).value) == Names(saved) + {editor.name}
    ensures DistinctNames(saved) ==> DistinctNames(Save(saved, editor, runCoins).value)
  {
    var kept := Filter(saved, NotNamed(editor.name));
    var t := ToSave(editor, runCoins);
    assert Save(saved, editor, runCoins).value == kept + [t];
    KeptLacksName(saved, editor.name);
    FindAppend(kept, t, Named(editor.name));
    if n != editor.name {
      FindAppend(kept, t, Named(n));
      FindThroughFilter(saved, NotNamed(editor.name), Named(n));
    }
    SaveNames(saved, editor.name, t);
    if DistinctNames(saved) {
      FilterKeepsDistinct(saved, NotNamed(editor.name));
      AppendNewName(kept, t);
    }
  }

  /** Dropping the levels named `n` leaves none that a lookup of `n` finds. */
  lemma KeptLacksName(saved: seq<Level>, n: string)
    ensures Lookup(Filter(saved, NotNamed(n)), n).None?
  {
    var kept := Filter(saved, NotNamed(n));
    forall j | 0 <= j < |kept| ensures !Named(n)(kept[j]) {
      assert NotNamed(n)(kept[j]);
    }
  }

  /** Dropping the levels named like `t` and appending `t` keeps the set of names and adds `t`'s. */
  lemma SaveNames(saved: seq<Level>, n: string, t: Level)
    requires t.name == n
    ensures Names(Filter(saved, NotNamed(n)) + [t]) == Names(saved) + {n}
  {
    var r := Filter(saved, NotNamed(n)) + [t];
    forall x | x in Names(saved) ensures x in Names(r) {
      var y :| y in saved && y.name == x;
      var i :| 0 <= i < |saved| && saved[i] == y;
      if x != n {
        assert NotNamed(n)(saved[i]);
      }
    }
  }

  /** Without repeated names, the tail repeats none and lacks the head's name. */
  lemma DistinctTail(s: seq<Level>)
    requires s != [] && DistinctNames(s)
    ensures DistinctNames(s[1..]) && s[0].name !in Names(s[1..])
  {
    forall i, j | 0 <= i < j < |s[1..]| ensures s[1..][i].name != s[1..][j].name {
      assert s[1..][i] == s[i + 1] && s[1..][j] == s[j + 1];
    }
    forall x | x in s[1..] ensures x.name != s[0].name {
      var k :| 0 <= k < |s[1..]| && s[1..][k] == x;
      assert s[k + 1] == x;
    }
  }

  /** Filtering a list without repeated names leaves a list without repeated names. */
  lemma {:induction false} FilterKeepsDistinct(s: seq<Level>, p: Level -> bool)
    requires DistinctNames(s)
    ensures DistinctNames(Filter(s, p))
  {
    if s != [] {
      DistinctTail(s);
      FilterKeepsDistinct(s[1..], p);
      if p(s[0]) {
        var rest := Filter(s[1..], p);
        var r := [s[0]] + rest;
        forall i, j | 0 <= i < j < |r| ensures r[i].name != r[j].name {
          assert r[j] == rest[j - 1] && rest[j - 1] in s[1..];
          if i > 0 {
            assert r[i] == rest[i - 1];
          }
        }
      }
    }
  }

  /** Saving the same editor level twice gives the list the first save gave. */
  lemma SaveIsIdempotent(saved: seq<Level>, editor: Level, runCoins: nat)
    requires Save(saved, editor, runCoins).Some?
    ensures Save(Save(saved, editor, runCoins).value, editor, runCoins) == Save(saved, editor, runCoins)
  {
    var p := NotNamed(editor.name);
    var kept := Filter(saved, p);
    var t := ToSave(editor, runCoins);
    assert t.name == editor.name;
    assert Save(saved, editor, runCoins).value == kept + [t];
    FilterConcat(kept, [t], p);
    assert Filter([t], p) == [] by {
      assert [t][1..] == [];
    }
    assert Filter(kept, p) == kept;
    assert Filter(kept + [t], p) == kept;
    assert Save(kept + [t], editor, runCoins) == Some(Filter(kept + [t], p) + [t]);
  }

  // ---------------------------------------------------------------------
  // Delete
  // ---------------------------------------------------------------------

  /** `handleDeleteLevel`: refused (`None`) for a builtin; otherwise every level of that name goes. */
  function Delete(saved: seq<Level>, level: Level): (r: Option<seq<Level>>)
    ensures r.None? <==> level.origin == Some(Builtin)
    ensures r.Some? ==> level.name !in Names(r.value)
    ensures r.Some? ==> forall l :: l in saved && l.name != level.name ==> l in r.value
    ensures r.Some? ==> forall l :: l in r.value ==> l in saved
    ensures r.Some? ==> r.value == Filter(saved, NotNamed(level.name))
  {
    if level.origin == Some(Builtin) then None
    else
      var kept := Filter(saved, NotNamed(level.name));
      assert forall l :: l in kept ==> l.name != level.name by {
        forall l | l in kept ensures l.name != level.name {
          var j :| 0 <= j < |kept| && kept[j] == l;
          assert NotNamed(level.name)(kept[j]);
        }
      }
      assert forall l :: l in saved && l.name != level.name ==> l in kept by {
        forall l | l in saved && l.name != level.name ensures l in kept {
          var j :| 0 <= j < |saved| && saved[j] == l;
          assert NotNamed(level.name)(saved[j]);
        }
      }
      Some(kept)
  }

  /** A deletion leaves every other name's lookup as it was. */
  lemma DeleteKeepsOthers(saved: seq<Level>, level: Level, n: string)
    requires Delete(saved, level).Some? && n != level.name
    ensures Lookup(Delete(saved, level).value, n) == Lookup(saved, n)
  {
    FindThroughFilter(saved, NotNamed(level.name), Named(n));
  }

  /** Deleting one of the list's own user levels never removes a builtin level. */
  lemma DeleteNeverRemovesBuiltin(saved: seq<Level>, level: Level)
    requires level in saved && DistinctNames(saved)
    requires Delete(saved, level).Some?
    ensures forall l :: l in saved && l.origin == Some(Builtin) ==> l in Delete(saved, level).value
  {
    forall l | l in saved && l.origin == Some(Builtin)
      ensures l.name != level.name
    {
      var i :| 0 <= i < |saved| && saved[i] == l;
      var k :| 0 <= k < |saved| && saved[k] == level;
      assert i != k;
    }
  }

  // ---------------------------------------------------------------------
  // Win
  // ---------------------------------------------------------------------

  /**
   * `handleWin`'s update of the active level: the better of the old high
   * score and this run's coins, and `completedAt` kept when truthy, otherwise
   * stamped with `now`.
   */
  function WinUpdate(active: Level, coins: nat, now: nat): (r: Level)
    ensures r == active.(highScore := r.highScore, completedAt := r.completedAt)
    ensures r.highScore.Some? && r.highScore.value >= coins && r.highScore.value >= active.highScore.GetOr(0)
    ensures r.highScore.value == coins || r.highScore.value == active.highScore.GetOr(0)
    ensures Completed(active) ==> r.completedAt == active.completedAt
    ensures !Completed(active) ==> r.completedAt == Some(now)
    ensures Completed(r) <==> Completed(active) || now != 0
  {
    active.(
      highScore := Some(Max(active.highScore.GetOr(0), coins)),
      completedAt := if Completed(active) then active.completedAt else Some(now))
  }

  /** Once a win has stamped a level, later wins keep the stamp and never lower the high score. */
  lemma WinStampIsPermanent(active: Level, coins: nat, now: nat, coins': nat, now': nat)
    requires Completed(active) || now != 0
    ensures Completed(WinUpdate(WinUpdate(active, coins, now), coins', now'))
    ensures WinUpdate(WinUpdate(active, coins, now), coins', now').completedAt == WinUpdate(active, coins, now).completedAt
    ensures WinUpdate(WinUpdate(active, coins, now), coins', now').highScore.value >= WinUpdate(active, coins, now).highScore.value
  {
  }

  /** `savedLevels.map(l => l.name === updated.name ? updated : l)`. */
  function ReplaceByName(saved: seq<Level>, updated: Level): (r: seq<Level>)
    ensures |r| == |saved|
  {
    seq(|saved|, i requires 0 <= i < |saved| => if saved[i].name == updated.name then updated else saved[i])
  }

  /**
   * Replacing by name keeps the names, makes the name find the updated level
   * when it is present (and changes nothing when it is not), and leaves every
   * other name's lookup as it was.
   */
  lemma ReplaceByNameFacts(saved: seq<Level>, updated: Level, n: string)
    ensures Names(ReplaceByName(saved, updated)) == Names(saved)
    ensures updated.name !in Names(saved) ==> ReplaceByName(saved, updated) == saved
    ensures updated.name in Names(saved) ==> Lookup(ReplaceByName(saved, updated), updated.name) == Some(updated)
    ensures n != updated.name ==> Lookup(ReplaceByName(saved, updated), n) == Lookup(saved, n)
    ensures DistinctNames(saved) ==> DistinctNames(ReplaceByName(saved, updated))
  {
    ReplaceKeepsNames(saved, updated);
    if updated.name in Names(saved) {
      ReplaceFindsUpdated(saved, updated);
    }
    if n != updated.name {
      ReplaceKeepsOtherLookups(saved, updated, n);
    }
  }

  /** Replacing by name keeps the name at every position, and a missing name changes nothing. */
  lemma ReplaceKeepsNames(saved: seq<Level>, updated: Level)
    ensures Names(ReplaceByName(saved, updated)) == Names(saved)
    ensures updated.name !in Names(saved) ==> ReplaceByName(saved, updated) == saved
    ensures DistinctNames(saved) ==> DistinctNames(ReplaceByName(saved, updated))
  {
    var r := ReplaceByName(saved, updated);
    assert forall i :: 0 <= i < |r| ==> r[i].name == saved[i].name;
    forall x | x in Names(saved) ensures x in Names(r) {
      var y :| y in saved && y.name == x;
      var i :| 0 <= i < |saved| && saved[i] == y;
      assert r[i] in r;
    }
    forall x | x in Names(r) ensures x in Names(saved) {
      var y :| y in r && y.name == x;
      var i :| 0 <= i < |r| && r[i] == y;
      assert saved[i] in saved;
    }
    if updated.name !in Names(saved) {
      forall i | 0 <= i < |saved| ensures r[i] == saved[i] {
        assert saved[i] in saved;
      }
    }
  }

  /** A name the list holds finds the updated level after the replacement. */
  lemma ReplaceFindsUpdated(saved: seq<Level>, updated: Level)
    requires updated.name in Names(saved)
    ensures Lookup(ReplaceByName(saved, updated), updated.name) == Some(updated)
  {
    var y :| y in saved && y.name == updated.name;
    var k :| 0 <= k < |saved| && saved[k] == y;
    assert Named(updated.name)(saved[k]);
    var f := FindIndex(saved, Named(updated.name));
    FirstMatch(ReplaceByName(saved, updated), Named(updated.name), f.value);
  }

  /** Every other name finds what it found before the replacement. */
  lemma ReplaceKeepsOtherLookups(saved: seq<Level>, updated: Level, n: string)
    requires n != updated.name
    ensures Lookup(ReplaceByName(saved, updated), n) == Lookup(saved, n)
  {
    var r := ReplaceByName(saved, updated);
    var f := FindIndex(saved, Named(n));
    if f.Some? {
      FirstMatch(r, Named(n), f.value);
    } else {
      assert forall j :: 0 <= j < |r| ==> !Named(n)(r[j]) by {
        forall j | 0 <= j < |r| ensures !Named(n)(r[j]) {
          assert !Named(n)(saved[j]);
        }
      }
    }
  }

  // ---------------------------------------------------------------------
  // The blank level
  // ---------------------------------------------------------------------

  /**
   * `createBlankLevel`: a 10×10 grid of empty cells with no start, one tool
   * of each kind, no teleporters or force tiles, zero coins, never completed,
   * a user level credited to the stored author name or to "Você". The clock
   * reading that names it is the parameter `time`.
   */
  function CreateBlankLevel(time: string, author: Option<string>): (l: Level)
    ensures l.name == "New Level " + time
    ensures |l.grid| == EditorGridSize
    ensures forall y :: 0 <= y < |l.grid| ==> |l.grid[y]| == EditorGridSize
    ensures forall y, x :: 0 <= y < |l.grid| && 0 <= x < |l.grid[y]| ==> l.grid[y][x] == Empty
    ensures l.startPosition == Pos(-1, -1) && Cardinal(l.startDirection)
    ensures forall k :: l.inventory.Get(k) == 1
    ensures l.teleporters == [] && l.forceTiles == []
    ensures l.totalCoins == Some(CoinsCount(l.grid)) && CoinsCount(l.grid) == 0
    ensures l.highScore == Some(0) && !Completed(l) && l.origin == Some(User)
    ensures l.createdBy.Some? && l.createdBy.value != ""
    ensures author.Some? && author.value != "" ==> l.createdBy == author
  {
    var grid := EmptyGrid(EditorGridSize);
    CoinsCountIsCoinCells(grid);
    assert CoinCells(grid) == {};
    Level("New Level " + time, grid, Pos(-1, -1), Direction(1, 0), Inventory(1, 1, 1), [], [],
      Some(0), Some(0), None, Some(User),
      Some(if author.Some? && author.value != "" then author.value else "Você"))
  }
}
