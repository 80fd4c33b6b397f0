/**
 * The initials modal: three letter wheels over A–Z and an active slot. Up
 * and down turn one wheel modulo 26, left and right move the active slot
 * within the three, Enter saves the three letters and Escape cancels.
 */
module InitialsModal {
  const Alphabet: string := "ABCDEFGHIJKLMNOPQRSTUVWXYZ"
  const Letters: nat := 26
  const Slots: nat := 3

  /** The wheels' letter indices and the active slot. */
  datatype Wheels = Wheels(letters: seq<int>, active: int)

  predicate Valid(w: Wheels) {
    && |w.letters| == Slots
    && (forall i :: 0 <= i < Slots ==> 0 <= w.letters[i] < Letters)
    && 0 <= w.active < Slots
  }

  /** The state the modal starts in: A, A, A with the first slot active. */
  const Initial := Wheels([0, 0, 0], 0)

  /** `setActive(i => Math.max(0, i - 1))`. */
  function Left(w: Wheels): (r: Wheels)
    ensures r.letters == w.letters
    ensures r.active == if w.active > 0 then w.active - 1 else 0
  {
    w.(active := if w.active - 1 > 0 then w.active - 1 else 0)
  }

  /** `setActive(i => Math.min(2, i + 1))`. */
  function Right(w: Wheels): (r: Wheels)
    ensures r.letters == w.letters
    ensures r.active == if w.active < Slots - 1 then w.active + 1 else Slots - 1
  {
    w.(active := if w.active + 1 < 2 then w.active + 1 else 2)
  }

  /** Turns wheel `idx` one letter forward, from Z back to A. */
  function Up(w: Wheels, idx: nat): (r: Wheels)
    requires idx < |w.letters|
    ensures |r.letters| == |w.letters| && r.active == w.active
    ensures forall i :: 0 <= i < |w.letters| && i != idx ==> r.letters[i] == w.letters[i]
    ensures r.letters[idx] == (w.letters[idx] + 1) % Letters
    ensures 0 <= w.letters[idx] < Letters - 1 ==> r.letters[idx] == w.letters[idx] + 1
    ensures w.letters[idx] == Letters - 1 ==> r.letters[idx] == 0
  {
    w.(letters := w.letters[idx := (w.letters[idx] + 1) % Letters])
  }

  /** Turns wheel `idx` one letter back, from A round to Z. */
  function Down(w: Wheels, idx: nat): (r: Wheels)
    requires idx < |w.letters|
    ensures |r.letters| == |w.letters| && r.active == w.active
    ensures forall i :: 0 <= i < |w.letters| && i != idx ==> r.letters[i] == w.letters[i]
    ensures r.letters[idx] == (w.letters[idx] - 1 + Letters) % Letters
    ensures 0 < w.letters[idx] < Letters ==> r.letters[idx] == w.letters[idx] - 1
    ensures w.letters[idx] == 0 ==> r.letters[idx] == Letters - 1
  {
    w.(letters := w.letters[idx := (w.letters[idx] - 1 + Letters) % Letters])
  }

  /** The ↑ and ↓ buttons of a column: make that slot active, then turn its wheel. */
  function ColumnUp(w: Wheels, idx: nat): Wheels
    requires idx < |w.letters|
  {
    Up(w.(active := idx), idx)
  }

  function ColumnDown(w: Wheels, idx: nat): Wheels
    requires idx < |w.letters|
  {
    Down(w.(active := idx), idx)
  }

  /** The letter with index `i`. */
  function Letter(i: int): char
    requires 0 <= i < Letters
  {
    Alphabet[i]
  }

  /** `letters.map(i => ALPHABET[i]).join('')`. */
  function Initials(w: Wheels): (s: string)
    requires Valid(w)
    ensures |s| == Slots
    ensures forall i :: 0 <= i < Slots ==> 'A' <= s[i] <= 'Z'
  {
    AlphabetIsAToZ();
    seq(Slots, i requires 0 <= i < Slots => Letter(w.letters[i]))
  }

  /** The wheel indices a string of capital letters spells. */
  function Indices(s: string): seq<int> {
    seq(|s|, i requires 0 <= i < |s| => s[i] as int - 'A' as int)
  }

  /** The alphabet is the 26 capital letters, in order. */
  lemma AlphabetIsAToZ()
    ensures |Alphabet| == Letters
    ensures forall i :: 0 <= i < Letters ==> Alphabet[i] as int == 'A' as int + i
  {
    forall i | 0 <= i < Letters ensures Alphabet[i] as int == 'A' as int + i {
      if i < 13 {
        if i < 7 {
          if i == 0 {} else if i == 1 {} else if i == 2 {} else if i == 3 {} else if i == 4 {} else if i == 5 {} else {}
        } else {
          if i == 7 {} else if i == 8 {} else if i == 9 {} else if i == 10 {} else if i == 11 {} else {}
        }
      } else {
        if i < 20 {
          if i == 13 {} else if i == 14 {} else if i == 15 {} else if i == 16 {} else if i == 17 {} else if i == 18 {} else {}
        } else {
          if i == 20 {} else if i == 21 {} else if i == 22 {} else if i == 23 {} else if i == 24 {} else {}
        }
      }
    }
  }

  /** The saved initials spell back the wheels, so different wheels give different initials. */
  lemma InitialsRoundTrip(w: Wheels)
    requires Valid(w)
    ensures Indices(Initials(w)) == w.letters
  {
    AlphabetIsAToZ();
  }

  /** Every turn and move keeps three wheels within A–Z and the active slot within the three. */
  lemma MovesKeepValid(w: Wheels, idx: nat)
    requires Valid(w) && idx < Slots
    ensures Valid(Left(w)) && Valid(Right(w))
    ensures Valid(Up(w, idx)) && Valid(Down(w, idx))
    ensures Valid(ColumnUp(w, idx)) && Valid(ColumnDown(w, idx))
  {
  }

  /** Down undoes up and up undoes down. */
  lemma UpDownCancel(w: Wheels, idx: nat)
    requires Valid(w) && idx < Slots
    ensures Down(Up(w, idx), idx) == w
    ensures Up(Down(w, idx), idx) == w
  {
    assert Down(Up(w, idx), idx).letters == w.letters;
    assert Up(Down(w, idx), idx).letters == w.letters;
  }

  /** `n` turns up of wheel `idx`. */
  function Ups(w: Wheels, idx: nat, n: nat): (r: Wheels)
    requires idx < |w.letters|
    ensures |r.letters| == |w.letters|
  {
    if n == 0 then w else Up(Ups(w, idx, n - 1), idx)
  }

  lemma {:induction false} UpsTurn(w: Wheels, idx: nat, n: nat)
    requires Valid(w) && idx < Slots
    ensures Ups(w, idx, n).letters == w.letters[idx := (w.letters[idx] + n) % Letters]
    ensures Ups(w, idx, n).active == w.active
  {
    if n > 0 {
      UpsTurn(w, idx, n - 1);
    }
  }

  /** Twenty-six turns up bring a wheel back to its letter. */
  lemma FullTurn(w: Wheels, idx: nat)
    requires Valid(w) && idx < Slots
    ensures Ups(w, idx, Letters) == w
  {
    UpsTurn(w, idx, Letters);
    assert Ups(w, idx, Letters).letters == w.letters;
  }

  datatype Key = ArrowLeft | ArrowRight | ArrowUp | ArrowDown | Enter | Escape | OtherKey

  /** What a key press leads to: new wheels, a save of the initials, or a cancel. */
  datatype Outcome = Continue(wheels: Wheels) | Saved(initials: string) | Cancelled

  /** The key handler; nothing happens while the modal is closed. */
  function OnKey(open: bool, w: Wheels, k: Key): (r: Outcome)
    requires Valid(w)
    ensures r.Continue? ==> Valid(r.wheels)
    ensures r.Saved? ==> |r.initials| == Slots && Indices(r.initials) == w.letters
    ensures !open ==> r == Continue(w)
    ensures open && k == Enter ==> r == Saved(Initials(w))
    ensures open && k == Escape ==> r == Cancelled
    ensures open && k == ArrowLeft ==> r == Continue(Left(w))
    ensures open && k == ArrowRight ==> r == Continue(Right(w))
    ensures open && k == ArrowUp ==> r == Continue(Up(w, w.active))
    ensures open && k == ArrowDown ==> r == Continue(Down(w, w.active))
    ensures open && k == OtherKey ==> r == Continue(w)
  {
    InitialsRoundTrip(w);
    if !open then Continue(w)
    else match k
      case ArrowLeft => Continue(Left(w))
      case ArrowRight => Continue(Right(w))
      case ArrowUp => Continue(Up(w, w.active))
      case ArrowDown => Continue(Down(w, w.active))
      case Enter => Saved(Initials(w))
      case Escape => Cancelled
      case OtherKey => Continue(w)
  }

  /** The modal opens on A, A, A with the first slot active, and Enter there saves "AAA". */
  lemma InitialState()
    ensures Valid(Initial)
    ensures OnKey(true, Initial, Enter) == Saved("AAA")
  {
    AlphabetIsAToZ();
    assert Initials(Initial) == "AAA";
  }
}
