/**
 * A standard NES controller (NesEmu/Controller.cs): one pressed/released
 * state per button, kept in an array indexed by the button's number.
 */
module Controllers {

  /** The eight buttons, numbered 0 to 7 in this order. */
  datatype Button = A | B | Select | Start | Up | Down | Left | Right
  {
    /** The button's number, its index into the state array. */
    function Index(): (i: nat)
      ensures i < ButtonCount
      ensures ButtonAt(i) == this
    {
      match this
      case A => 0
      case B => 1
      case Select => 2
      case Start => 3
      case Up => 4
      case Down => 5
      case Left => 6
      case Right => 7
    }
  }

  /** The number of buttons, which is also the length of the state array. */
  const ButtonCount: nat := 8

  /** The button with a given number. */
  function ButtonAt(i: nat): (b: Button)
    requires i < ButtonCount
  {
    match i
    case 0 => A
    case 1 => B
    case 2 => Select
    case 3 => Start
    case 4 => Up
    case 5 => Down
    case 6 => Left
    case _ => Right
  }

  /** Numbering is one-to-one: every index names exactly one button. */
  lemma NumberingIsBijective(i: nat, b: Button, c: Button)
    requires i < ButtonCount
    ensures ButtonAt(i).Index() == i
    ensures b.Index() == c.Index() <==> b == c
  {
    assert ButtonAt(b.Index()) == b && ButtonAt(c.Index()) == c;
  }

  class Controller {
    const states: array<bool>

    predicate Valid()
      reads this
    {
      states.Length == ButtonCount
    }

    /** A new controller: no button is pressed. */
    constructor ()
      ensures Valid() && fresh(states)
      ensures forall b: Button :: !GetState(b)
    {
      states := new bool[ButtonCount](_ => false);
    }

    /** `GetState`: whether the button is pressed. Reading changes nothing. */
    function GetState(button: Button): bool
      reads this, states
      requires Valid()
    {
      states[button.Index()]
    }

    /** `SetState`: records one button's state and leaves the other seven as they were. */
    method SetState(button: Button, state: bool)
      requires Valid()
      modifies states
      ensures states[..] == old(states[..])[button.Index() := state]
      ensures GetState(button) == state
      ensures forall other: Button :: other != button ==> GetState(other) == old(GetState(other))
    {
      states[button.Index()] := state;
      forall other: Button | other != button
        ensures other.Index() != button.Index()
      {
        NumberingIsBijective(0, other, button);
      }
    }
  }
}
