/** The character picker shown before a run (`PlayerSelector` in js/app.js). */
module Selection {
  import opened GameConfig

  /** The picker's mutable part: the highlighted index and the confirmation latch. */
  datatype SelectorState = SelectorState(choice: int, selected: bool)

  /** The effect of one key on a picker over `count` characters. */
  function Step(s: SelectorState, count: int, key: Key): (r: SelectorState)
    ensures 0 <= s.choice < count ==> 0 <= r.choice < count
    ensures s.selected ==> r.choice == s.choice
    ensures key == Left && !s.selected && s.choice > 0 ==> r.choice == s.choice - 1
    ensures key == Right && !s.selected && s.choice + 1 < count ==> r.choice == s.choice + 1
    ensures key == Left && s.choice == 0 ==> r == s
    ensures key == Right && s.choice == count - 1 ==> r == s
    ensures key == Enter ==> r == SelectorState(s.choice, true)
    ensures key != Left && key != Right && key != Enter ==> r == s
    ensures r.selected == (s.selected || key == Enter)
  {
    match key
    case Left => if !s.selected && s.choice - 1 >= 0 then s.(choice := s.choice - 1) else s
    case Right => if !s.selected && s.choice + 1 < count then s.(choice := s.choice + 1) else s
    case Enter => s.(selected := true)
    case _ => s
  }

  /** The picker after a sequence of keys. */
  function Run(s: SelectorState, count: int, keys: seq<Key>): SelectorState
    decreases |keys|
  {
    if keys == [] then s else Run(Step(s, count, keys[0]), count, keys[1..])
  }

  /** Starting inside the choices, no key sequence moves the highlight out of them. */
  lemma {:induction false} RunStaysInRange(s: SelectorState, count: int, keys: seq<Key>)
    requires 0 <= s.choice < count
    ensures 0 <= Run(s, count, keys).choice < count
    decreases |keys|
  {
    if keys != [] {
      RunStaysInRange(Step(s, count, keys[0]), count, keys[1..]);
    }
  }

  /** Once a character is confirmed, no key sequence changes the picker. */
  lemma {:induction false} ConfirmedIsFrozen(s: SelectorState, count: int, keys: seq<Key>)
    requires s.selected
    ensures Run(s, count, keys) == s
    decreases |keys|
  {
    if keys != [] {
      ConfirmedIsFrozen(Step(s, count, keys[0]), count, keys[1..]);
    }
  }

  /** Five choices: left at 0 is clamped; right four times and left once reach index 3. */
  lemma FiveChoicesWalk()
    ensures Run(SelectorState(0, false), 5, [Left]) == SelectorState(0, false)
    ensures Run(SelectorState(0, false), 5, [Left, Right, Right, Right, Right, Left]) == SelectorState(3, false)
  {
  }

  class PlayerSelector {
    const frameSprite: string
    const charSprites: seq<string>
    var choice: int
    var selected: bool

    ghost predicate Valid()
      reads this
    {
      0 <= choice < |charSprites|
    }

    function State(): SelectorState
      reads this
    {
      SelectorState(choice, selected)
    }

    constructor (frameSprite: string, charSprites: seq<string>)
      ensures |charSprites| > 0 ==> Valid()
      ensures this.frameSprite == frameSprite && this.charSprites == charSprites
      ensures State() == SelectorState(0, false)
    {
      this.frameSprite := frameSprite;
      this.charSprites := charSprites;
      choice := 0;
      selected := false;
    }

    method Reset()
      modifies this
      ensures |charSprites| > 0 ==> Valid()
      ensures State() == SelectorState(0, false)
    {
      choice := 0;
      selected := false;
    }

    /**
     * Applies one key. The `onSelect` callback is returned as `chosen`: Enter always
     * fires it with the highlighted sprite, confirmed or not.
     */
    method HandleInput(key: Key) returns (chosen: Option<string>)
      requires Valid()
      modifies this
      ensures Valid()
      ensures State() == Step(old(State()), |charSprites|, key)
      ensures chosen == if key == Enter then Some(charSprites[old(choice)]) else None
    {
      chosen := None;
      match key
      case Left =>
        if !selected && choice - 1 >= 0 {
          choice := choice - 1;
        }
      case Right =>
        if !selected && choice + 1 < |charSprites| {
          choice := choice + 1;
        }
      case Enter =>
        selected := true;
        chosen := Some(charSprites[choice]);
      case _ =>
    }
  }
}
