/** The two-hand grab/drop state of the first-person character, as values.

    A character tracks, for each hand, whether that hand is empty. A hand
    selector names the left hand, the right hand, both hands, or any other
    integer code the engine might pass; the query and the toggle below are the
    specification that the character's methods are proved against.

    Besides the two flags, the state is also described independently as the
    set of sides that currently hold an object (`Held`); a selector addresses a
    set of sides (`Targets`). In those terms a grab/drop toggles exactly the
    addressed sides (a symmetric difference) and a query asks whether none of
    the addressed sides holds anything.
 */
module Hands {

  /** The hand selector. `Other(code)` stands for every integer code that is
      not one of the three enumerators; the enumerators' numeric values are
      not part of this model. */
  datatype Hand = Left | Right | Both | Other(code: int)

  /** One physical side of the character. */
  datatype Side = LeftSide | RightSide

  /** The two flags of the character: true means that hand holds nothing. */
  datatype HandState = HandState(leftEmpty: bool, rightEmpty: bool)

  /** Both hands start out empty. */
  const INITIAL: HandState := HandState(true, true)

  /** A selector is recognised when it is one of the three enumerators; any
      other code only produces a warning. */
  predicate Recognised(hand: Hand) {
    !hand.Other?
  }

  /** The sides a selector addresses. */
  function Targets(hand: Hand): (t: set<Side>)
    ensures t == {} <==> !Recognised(hand)
    ensures hand.Both? <==> t == {LeftSide, RightSide}
  {
    match hand
    case Left => {LeftSide}
    case Right => {RightSide}
    case Both => {LeftSide, RightSide}
    case Other(_) => {}
  }

  /** The sides that currently hold an object. */
  function Held(s: HandState): set<Side> {
    (if s.leftEmpty then {} else {LeftSide}) + (if s.rightEmpty then {} else {RightSide})
  }

  /** The answer of the hand query. An unrecognised selector answers "not
      empty"; "both" answers empty only when both hands are empty. */
  function Query(s: HandState, hand: Hand): (r: bool)
    ensures r <==> Recognised(hand) && Targets(hand) * Held(s) == {}
  {
    match hand
    case Left => s.leftEmpty
    case Right => s.rightEmpty
    case Both => s.leftEmpty && s.rightEmpty
    case Other(_) => false
  }

  /** The state after one grab/drop with the given selector: every addressed
      side changes between holding and empty, every other side is left as it
      was. "Both" is a left toggle followed by a right toggle. */
  function Toggle(s: HandState, hand: Hand): (r: HandState)
    decreases if hand.Both? then 1 else 0
    ensures Held(r) == (Held(s) - Targets(hand)) + (Targets(hand) - Held(s))
  {
    match hand
    case Left => s.(leftEmpty := !s.leftEmpty)
    case Right => s.(rightEmpty := !s.rightEmpty)
    case Both => Toggle(Toggle(s, Left), Right)
    case Other(_) => s
  }

  /** Querying both hands is the conjunction of querying each hand. */
  lemma QueryBothIsConjunction(s: HandState)
    ensures Query(s, Both) == (Query(s, Left) && Query(s, Right))
  {
  }

  /** Straight after construction every recognised query answers "empty". */
  lemma InitialAllEmpty(hand: Hand)
    ensures Query(INITIAL, hand) <==> Recognised(hand)
    ensures Held(INITIAL) == {}
  {
  }

  /** A single-hand toggle flips that hand's flag and leaves the other hand
      alone; a "both" toggle flips each flag independently. */
  lemma ToggleFlipsAddressedFlags(s: HandState, hand: Hand)
    ensures Toggle(s, hand).leftEmpty == (s.leftEmpty != (LeftSide in Targets(hand)))
    ensures Toggle(s, hand).rightEmpty == (s.rightEmpty != (RightSide in Targets(hand)))
  {
  }

  /** An unrecognised selector changes nothing. */
  lemma ToggleOtherIsNoOp(s: HandState, code: int)
    ensures Toggle(s, Other(code)) == s
  {
  }

  /** Grabbing/dropping twice with the same selector restores the state. */
  lemma ToggleTwiceIsIdentity(s: HandState, hand: Hand)
    ensures Toggle(Toggle(s, hand), hand) == s
  {
  }

  /** Toggles with different selectors commute: the order in which the two
      hands are operated does not matter. */
  lemma ToggleCommutes(s: HandState, a: Hand, b: Hand)
    ensures Toggle(Toggle(s, a), b) == Toggle(Toggle(s, b), a)
  {
  }

  /** The "both" query answered after a "both" toggle is the negation of the
      one answered before exactly when the two hands were in the same state:
      a "both" toggle flips each hand, not the combined answer. */
  lemma ToggleBothNegatesQueryBothIffInSync(s: HandState)
    ensures Query(Toggle(s, Both), Both) == !Query(s, Both) <==> s.leftEmpty == s.rightEmpty
  {
  }

  /** The state after a sequence of grab/drop requests, taken in order. */
  function Run(s: HandState, requests: seq<Hand>): HandState
    decreases |requests|
  {
    if requests == [] then s else Run(Toggle(s, requests[0]), requests[1..])
  }

  /** How many of the requests address the given side. */
  function Count(requests: seq<Hand>, side: Side): (n: nat)
    ensures n <= |requests|
  {
    if requests == [] then 0
    else (if side in Targets(requests[0]) then 1 else 0) + Count(requests[1..], side)
  }

  /** After any sequence of requests a side holds an object exactly when it
      held one before and was addressed an even number of times, or it was
      empty and was addressed an odd number of times. */
  lemma {:induction false} RunParity(s: HandState, requests: seq<Hand>, side: Side)
    ensures side in Held(Run(s, requests)) <==> ((side in Held(s)) != (Count(requests, side) % 2 == 1))
    decreases |requests|
  {
    if requests != [] {
      RunParity(Toggle(s, requests[0]), requests[1..], side);
    }
  }

  /** From the initial state, each hand's query answers "empty" exactly when
      that hand was addressed an even number of times. */
  lemma {:induction false} RunFromInitial(requests: seq<Hand>)
    ensures Query(Run(INITIAL, requests), Left) <==> Count(requests, LeftSide) % 2 == 0
    ensures Query(Run(INITIAL, requests), Right) <==> Count(requests, RightSide) % 2 == 0
  {
    RunParity(INITIAL, requests, LeftSide);
    RunParity(INITIAL, requests, RightSide);
  }

  /** Requests that only ever address both hands keep the two hands in the
      same state, so that each of them negates the "both" query (see
      `ToggleBothNegatesQueryBothIffInSync`). */
  lemma {:induction false} RunBothKeepsHandsInSync(s: HandState, requests: seq<Hand>)
    requires s.leftEmpty == s.rightEmpty
    requires forall i :: 0 <= i < |requests| ==> requests[i] == Both
    ensures Run(s, requests).leftEmpty == Run(s, requests).rightEmpty
    decreases |requests|
  {
    if requests != [] {
      ToggleFlipsAddressedFlags(s, Both);
      RunBothKeepsHandsInSync(Toggle(s, Both), requests[1..]);
    }
  }
}
