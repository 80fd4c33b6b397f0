/**
 * The intro cinematic: five scenes and a step counter. Advancing moves one
 * scene on until the second-to-last, where it closes the intro instead;
 * Escape closes it at once, and opening it starts again at the first scene.
 */
module IntroCinematic {
  /** The number of scenes. */
  const SceneCount: nat := 5

  /** The scene shown and whether the intro is open. */
  datatype Intro = Intro(step: int, open: bool)

  /** Opening shows the first scene. */
  function Open(i: Intro): (r: Intro)
    ensures r.step == 0 && r.open
  {
    Intro(0, true)
  }

  /** `advance`: the next scene below the second-to-last; there it closes and keeps the step. */
  function Advance(i: Intro): (r: Intro)
    ensures i.step < SceneCount - 2 ==> r == Intro(i.step + 1, i.open)
    ensures i.step >= SceneCount - 2 ==> r == Intro(i.step, false)
  {
    if i.step < SceneCount - 2 then i.(step := i.step + 1) else i.(open := false)
  }

  datatype Key = EnterKey | Space | EscapeKey | OtherKey

  /** The key handler, attached only while the intro is open. */
  function OnKey(i: Intro, k: Key): (r: Intro)
    ensures !i.open ==> r == i
    ensures i.open && k == EscapeKey ==> r == Intro(i.step, false)
    ensures i.open && (k == EnterKey || k == Space) ==> r == Advance(i)
    ensures i.open && k == OtherKey ==> r == i
    ensures r.step == i.step || r.step == i.step + 1
  {
    if !i.open then i
    else match k
      case EnterKey => Advance(i)
      case Space => Advance(i)
      case EscapeKey => i.(open := false)
      case OtherKey => i
  }

  /** The scene index stays between the first and the second-to-last. */
  predicate InRange(i: Intro) {
    0 <= i.step <= SceneCount - 2
  }

  /** A sequence of key presses, in order. */
  function Run(i: Intro, keys: seq<Key>): Intro
    decreases keys
  {
    if keys == [] then i else Run(OnKey(i, keys[0]), keys[1..])
  }

  /** Whatever keys are pressed after opening, the step stays in range. */
  lemma {:induction false} RunStaysInRange(i: Intro, keys: seq<Key>)
    requires InRange(i)
    ensures InRange(Run(i, keys))
    decreases keys
  {
    if keys != [] {
      RunStaysInRange(OnKey(i, keys[0]), keys[1..]);
    }
  }

  /** So the last scene is never shown by advancing from an opened intro. */
  lemma LastSceneUnreachable(i: Intro, keys: seq<Key>)
    ensures Run(Open(i), keys).step != SceneCount - 1
  {
    RunStaysInRange(Open(i), keys);
  }

  /** Three advances from the first scene reach the second-to-last; a fourth closes the intro there. */
  lemma AdvancingCloses(i: Intro)
    ensures Run(Open(i), [EnterKey, EnterKey, EnterKey]) == Intro(SceneCount - 2, true)
    ensures Run(Open(i), [EnterKey, EnterKey, EnterKey, Space]) == Intro(SceneCount - 2, false)
  {
    assert [EnterKey, EnterKey, EnterKey][1..] == [EnterKey, EnterKey];
    assert [EnterKey, EnterKey, EnterKey, Space][1..] == [EnterKey, EnterKey, Space];
    assert [EnterKey, EnterKey][1..] == [EnterKey];
    assert [EnterKey, EnterKey, Space][1..] == [EnterKey, Space];
    assert [EnterKey, Space][1..] == [Space];
    assert [Space][1..] == [];
    assert [EnterKey][1..] == [];
  }
}
