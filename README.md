# SubEarth character hand state

A verified model of the grab/drop hand state of the SubEarth first-person
character (`ASubEarthCharacter`). The character keeps two flags,
`isLeftHandEmpty` and `isRightHandEmpty`. Both start true. Two operations act
on them, and each takes a hand selector: left, right, both, or an unrecognised
code.

- `IsHandEmpty(hand)` reads the flags. Left and right report their own flag.
  "Both" reports true only when both hands are empty. An unrecognised code
  logs a warning and reports false.
- `GrabDropObject(hand)` grabs with an empty hand and drops with a full one,
  i.e. it flips the selected flag. "Both" does left and then right. An
  unrecognised code only logs a warning. `LeftHandGrabDropObj` and
  `RightHandGrabDropObj` are the input actions bound to the two grab/drop
  buttons; each calls it with one hand.

Layout:

- `hands.dfy`, module `Hands`: the specification on values. It has the
  selector `Hand = Left | Right | Both | Other(code)`, the state
  `HandState(leftEmpty, rightEmpty)`, the query `Query` and the toggle
  `Toggle`. It also describes the state a second way, as the set of sides
  holding an object (`Held`), where a selector addresses a set of sides
  (`Targets`). In those terms a query asks whether no addressed side holds
  anything, and a toggle is the symmetric difference with the addressed
  sides. The lemmas are stated over these definitions. `Run` and `Count`
  extend them to a sequence of grab/drop requests.
- `character.dfy`, module `SubEarth`: class `SubEarthCharacter`. Its two
  boolean fields are updated in place. Its methods follow the source's
  switches, and each is proved against `Query` or `Toggle` through the ghost
  function `State()`.

## Model

| member | source | states |
|---|---|---|
| SubEarth.SubEarthCharacter.constructor | SubEarth/Source/SubEarth/SubEarthCharacter.cpp:50-51 | a new character has both hands empty (its state is `INITIAL`) |
| SubEarth.SubEarthCharacter.IsHandEmpty | SubEarth/Source/SubEarth/SubEarthCharacter.cpp:93-113 | the answer equals `Query` of the current flags; the method has no `modifies`, so the flags are unchanged |
| SubEarth.SubEarthCharacter.GrabDropObject | SubEarth/Source/SubEarth/SubEarthCharacter.cpp:169-213 | the new state is `Toggle` of the old one; each flag is negated exactly when the selector addresses its side, and is otherwise unchanged |
| SubEarth.SubEarthCharacter.LeftHandGrabDropObj | SubEarth/Source/SubEarth/SubEarthCharacter.cpp:157-160 | behaves as `GrabDropObject(Left)`: the left flag is negated and the right flag is unchanged |
| SubEarth.SubEarthCharacter.RightHandGrabDropObj | SubEarth/Source/SubEarth/SubEarthCharacter.cpp:163-166 | behaves as `GrabDropObject(Right)`: the right flag is negated and the left flag is unchanged |
| Hands.Query | SubEarth/Source/SubEarth/SubEarthCharacter.cpp:93-113 | reports empty exactly when the selector is recognised and none of the sides it addresses holds an object; an unrecognised selector reports false |
| Hands.Toggle | SubEarth/Source/SubEarth/SubEarthCharacter.cpp:169-213 | the held sides afterwards are the symmetric difference of the held sides before and the sides the selector addresses |
| Hands.QueryBothIsConjunction | SubEarth/Source/SubEarth/SubEarthCharacter.cpp:101-106 | the "both" query is true exactly when the left query and the right query are both true |
| Hands.InitialAllEmpty | SubEarth/Source/SubEarth/SubEarthCharacter.cpp:50-51 | in the initial state no side holds anything, and every recognised query (and only those) reports empty |
| Hands.ToggleFlipsAddressedFlags | SubEarth/Source/SubEarth/SubEarthCharacter.cpp:173-207 | a toggle negates each flag whose side is addressed and leaves the other flag unchanged: left and right are mirror images, and "both" negates each flag on its own |
| Hands.ToggleOtherIsNoOp | SubEarth/Source/SubEarth/SubEarthCharacter.cpp:209-211 | a toggle with an unrecognised selector leaves the state unchanged |
| Hands.ToggleTwiceIsIdentity | SubEarth/Source/SubEarth/SubEarthCharacter.cpp:175-199 | two toggles with the same selector restore the original state |
| Hands.ToggleCommutes | SubEarth/Source/SubEarth/SubEarthCharacter.cpp:173-207 | toggles with any two selectors give the same state in either order, so the hands change independently |
| Hands.ToggleBothNegatesQueryBothIffInSync | SubEarth/Source/SubEarth/SubEarthCharacter.cpp:202-207 | a "both" toggle negates the "both" query exactly when the two hands were in the same state; it flips each hand, not the combined answer |
| Hands.RunParity | SubEarth/Source/SubEarth/SubEarthCharacter.cpp:169-213 | after any sequence of requests, a side holds an object exactly when its starting state differs from the parity of how many requests addressed it |
| Hands.RunFromInitial | SubEarth/Source/SubEarth/SubEarthCharacter.cpp:50-51 | starting from construction, each hand reports empty exactly when it was addressed an even number of times |
| Hands.RunBothKeepsHandsInSync | SubEarth/Source/SubEarth/SubEarthCharacter.cpp:202-207 | if the hands start in the same state and only "both" requests arrive, the two flags stay equal |

## Left out

- The constructor's component wiring is left out: the capsule size, camera, first-person mesh, motion controllers, their relative locations and rotations, and the turn and look-up rates (`SubEarthCharacter.cpp:20-47`). These are engine object-model calls on float vectors.
- `SetupPlayerInputComponent` is left out. It only registers actions and axes with the engine's input dispatcher. The fact that the two grab/drop buttons invoke `LeftHandGrabDropObj` and `RightHandGrabDropObj` is assumed by `Run`, which treats a sequence of requests as consecutive toggles.
- `BeginPlay` and `OnResetVR` are left out. They call the engine base class and the head-mounted-display library.
- `MoveForward`, `MoveRight`, `TurnAtRate` and `LookUpAtRate` are left out. They do floating-point arithmetic and pass it to engine movement and controller calls.
- `UE_LOG` output is not modelled and has no effect on the modelled state. `Recognised` tells which selectors produce the "unrecognized hand enum" warning.
- The selector is a `Hand` value, not a C++ `int` cast to `Hand_e`. The enumeration is declared in `SubEarthCharacter.h`, which is not part of this model, so its numeric values are unknown. `Other(code)` stands for every code that is none of the three enumerators.
