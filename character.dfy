/** The first-person character's grab/drop hand state, updated in place.

    Only the two hand flags and the operations that read or toggle them are
    modelled; component wiring, input binding, movement and logging belong to
    the host engine. The value-level specification is in module `Hands`.
 */
module SubEarth {
  import opened Hands

  class SubEarthCharacter {
    /** True when the left hand holds nothing. */
    var isLeftHandEmpty: bool
    /** True when the right hand holds nothing. */
    var isRightHandEmpty: bool

    /** The abstract value of the character's hand state. */
    ghost function State(): HandState
      reads this
    {
      HandState(isLeftHandEmpty, isRightHandEmpty)
    }

    /** A new character holds nothing in either hand. */
    constructor ()
      ensures isLeftHandEmpty && isRightHandEmpty
      ensures State() == INITIAL
    {
      isLeftHandEmpty := true;
      isRightHandEmpty := true;
    }

    /** Whether the selected hand (or both hands) is empty; an unrecognised
        selector answers false after a warning. Reads the flags only. */
    method IsHandEmpty(hand: Hand) returns (isEmpty: bool)
      ensures isEmpty == Query(State(), hand)
    {
      isEmpty := false;
      match hand
      case Left =>
        isEmpty := isLeftHandEmpty;
      case Right =>
        isEmpty := isRightHandEmpty;
      case Both =>
        if isLeftHandEmpty && isRightHandEmpty {
          isEmpty := true;
        }
      case Other(_) =>
    }

    /** Grab with an empty hand, drop with a full one. "Both" grabs/drops with
        the left hand and then with the right; an unrecognised selector only
        warns. */
    method GrabDropObject(hand: Hand)
      modifies this
      decreases if hand.Both? then 1 else 0
      ensures State() == Toggle(old(State()), hand)
      ensures isLeftHandEmpty == (old(isLeftHandEmpty) != (LeftSide in Targets(hand)))
      ensures isRightHandEmpty == (old(isRightHandEmpty) != (RightSide in Targets(hand)))
    {
      match hand
      case Left =>
        if isLeftHandEmpty {
          isLeftHandEmpty := false;
        } else {
          isLeftHandEmpty := true;
        }
      case Right =>
        if isRightHandEmpty {
          isRightHandEmpty := false;
        } else {
          isRightHandEmpty := true;
        }
      case Both =>
        GrabDropObject(Left);
        GrabDropObject(Right);
      case Other(_) =>
    }

    /** Input action for the left hand's grab/drop button. */
    method LeftHandGrabDropObj()
      modifies this
      ensures State() == Toggle(old(State()), Left)
      ensures isLeftHandEmpty == !old(isLeftHandEmpty)
      ensures isRightHandEmpty == old(isRightHandEmpty)
    {
      GrabDropObject(Left);
    }

    /** Input action for the right hand's grab/drop button. */
    method RightHandGrabDropObj()
      modifies this
      ensures State() == Toggle(old(State()), Right)
      ensures isRightHandEmpty == !old(isRightHandEmpty)
      ensures isLeftHandEmpty == old(isLeftHandEmpty)
    {
      GrabDropObject(Right);
    }
  }
}
