/**
 * The ranking modal: when open it lists the ten best entries, best score
 * first; entries with equal scores keep the order they came in (a stable
 * sort of a copy, so the caller's list is left as it was).
 */
module RankingModal {
  import opened Wrappers
  import opened Seqs
  import opened Types

  /** How many entries the modal lists at most. */
  const Shown: nat := 10

  /** Non-increasing by score. */
  predicate ByScore(s: seq<RankingEntry>) {
    forall i, j :: 0 <= i < j < |s| ==> s[i].score >= s[j].score
  }

  function ScoreIs(v: int): RankingEntry -> bool {
    (e: RankingEntry) => e.score == v
  }

  /** Puts `e` before the first entry that scores no more than it. */
  function Insert(e: RankingEntry, s: seq<RankingEntry>): (r: seq<RankingEntry>)
    ensures multiset(r) == multiset(s) + multiset{e}
  {
    if s == [] || e.score >= s[0].score then [e] + s
    else
      assert s == [s[0]] + s[1..];
      [s[0]] + Insert(e, s[1..])
  }

  /** Inserting into a list sorted by score keeps it sorted. */
  lemma {:induction false} InsertKeepsOrder(e: RankingEntry, s: seq<RankingEntry>)
    requires ByScore(s)
    ensures ByScore(Insert(e, s))
  {
    if s != [] && e.score < s[0].score {
      var rest := Insert(e, s[1..]);
      InsertKeepsOrder(e, s[1..]);
      assert ByScore(s[1..]) by {
        forall i, j | 0 <= i < j < |s[1..]| ensures s[1..][i].score >= s[1..][j].score {
          assert s[1..][i] == s[i + 1] && s[1..][j] == s[j + 1];
        }
      }
      assert rest[0].score <= s[0].score by {
        if s[1..] != [] && e.score < s[1..][0].score {
          assert rest[0] == s[1];
        }
      }
      var r := [s[0]] + rest;
      forall i, j | 0 <= i < j < |r| ensures r[i].score >= r[j].score {
        assert r[j] == rest[j - 1];
        if i > 0 {
          assert r[i] == rest[i - 1];
        }
      }
    }
  }

  /** `[...entries].sort((a, b) => b.score - a.score)`: a stable sort, best score first. */
  function SortByScore(s: seq<RankingEntry>): (r: seq<RankingEntry>)
    ensures multiset(r) == multiset(s) && |r| == |s|
    ensures ByScore(r)
  {
    if s == [] then []
    else
      assert s == [s[0]] + s[1..];
      InsertKeepsOrder(s[0], SortByScore(s[1..]));
      Insert(s[0], SortByScore(s[1..]))
  }

  /** `slice(0, 10)`. */
  function Top(s: seq<RankingEntry>): seq<RankingEntry> {
    if |s| <= Shown then s else s[..Shown]
  }

  /** What the modal lists: nothing when it is closed, otherwise the top ten. */
  function Displayed(open: bool, entries: seq<RankingEntry>): (r: Option<seq<RankingEntry>>)
    ensures r.None? <==> !open
    ensures r.Some? ==> |r.value| <= Shown && ByScore(r.value)
    ensures r.Some? ==> |r.value| == if |entries| <= Shown then |entries| else Shown
    ensures r.Some? ==> multiset(r.value) <= multiset(entries)
    ensures r.Some? && |entries| <= Shown ==> multiset(r.value) == multiset(entries)
  {
    if !open then None
    else
      var sorted := SortByScore(entries);
      assert sorted == sorted[..|Top(sorted)|] + sorted[|Top(sorted)|..];
      Some(Top(sorted))
  }

  /** Inserting `e` into a list sorted by score puts it after the entries that score the same. */
  lemma {:induction false} InsertIsStable(e: RankingEntry, s: seq<RankingEntry>, v: int)
    requires ByScore(s)
    ensures Filter(Insert(e, s), ScoreIs(v)) == (if e.score == v then [e] else []) + Filter(s, ScoreIs(v))
  {
    if s == [] || e.score >= s[0].score {
      var r := [e] + s;
      assert r[0] == e && r[1..] == s;
    } else {
      var rest := Insert(e, s[1..]);
      var r := [s[0]] + rest;
      assert r[0] == s[0] && r[1..] == rest;
      InsertIsStable(e, s[1..], v);
    }
  }

  /** Entries of equal score come out of the sort in the order they went in. */
  lemma {:induction false} SortIsStable(s: seq<RankingEntry>, v: int)
    ensures Filter(SortByScore(s), ScoreIs(v)) == Filter(s, ScoreIs(v))
  {
    if s != [] {
      SortIsStable(s[1..], v);
      InsertIsStable(s[0], SortByScore(s[1..]), v);
    }
  }

  /** In a list sorted by score, what the top ten leave out scores no higher than what they keep. */
  lemma TopKeepsBest(sorted: seq<RankingEntry>)
    requires ByScore(sorted)
    ensures forall e, x :: multiset(Top(sorted))[e] < multiset(sorted)[e] && x in Top(sorted) ==> e.score <= x.score
  {
    var shown := Top(sorted);
    var rest := sorted[|shown|..];
    assert sorted == shown + rest;
    assert multiset(sorted) == multiset(shown) + multiset(rest);
    forall e, x | multiset(shown)[e] < multiset(sorted)[e] && x in shown
      ensures e.score <= x.score
    {
      assert e in multiset(rest);
      var i :| 0 <= i < |rest| && rest[i] == e;
      var j :| 0 <= j < |shown| && shown[j] == x;
      assert sorted[j] == x && sorted[|shown| + i] == e;
    }
  }

  /**
   * The open modal shows the best scores: an entry left out (or shown fewer
   * times than it occurs) scores no higher than any entry shown, and among
   * entries of one score those shown are the first ones in `entries`.
   */
  lemma DisplayedAreTheBest(entries: seq<RankingEntry>, v: int)
    ensures var shown := Displayed(true, entries).value;
      && (forall e, x :: multiset(shown)[e] < multiset(entries)[e] && x in shown ==> e.score <= x.score)
      && Filter(shown, ScoreIs(v)) <= Filter(entries, ScoreIs(v))
  {
    var sorted := SortByScore(entries);
    var shown := Top(sorted);
    TopKeepsBest(sorted);
    assert sorted == shown + sorted[|shown|..];
    FilterConcat(shown, sorted[|shown|..], ScoreIs(v));
    SortIsStable(entries, v);
  }
}
