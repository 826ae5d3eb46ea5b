/** Keyboard decoding: the held W/S/A/D keys become move events, and each move
    direction becomes a fixed displacement. */
module Input {
  import opened Geometry

  datatype MoveDirection = Up | Down | Left | Right

  /** The event one held key produces in a frame. */
  datatype PlayerMoveEvent = PlayerMoveEvent(direction: MoveDirection)

  /** Which of the four movement keys are held down this frame. */
  datatype KeyState = KeyState(w: bool, s: bool, a: bool, d: bool)

  /** Length of one move step. */
  const StepLength := 3

  /** The key whose being held asks for `direction`. */
  predicate Held(keys: KeyState, direction: MoveDirection) {
    match direction
    case Up => keys.w
    case Down => keys.s
    case Left => keys.a
    case Right => keys.d
  }

  /** Position of a direction in the order the keys are polled: W, S, A, D. */
  function PollOrder(direction: MoveDirection): nat {
    match direction
    case Up => 0
    case Down => 1
    case Left => 2
    case Right => 3
  }

  /** How many of the four keys are held. */
  function HeldCount(keys: KeyState): nat {
    (if keys.w then 1 else 0) + (if keys.s then 1 else 0) +
    (if keys.a then 1 else 0) + (if keys.d then 1 else 0)
  }

  function Opposite(direction: MoveDirection): MoveDirection {
    match direction
    case Up => Down
    case Down => Up
    case Left => Right
    case Right => Left
  }

  /** The displacement of one step in `direction`. */
  function MapDirectionToVec3(direction: MoveDirection): Vec3 {
    match direction
    case Up => Vec3(0, 3, 0)
    case Down => Vec3(0, -3, 0)
    case Left => Vec3(-3, 0, 0)
    case Right => Vec3(3, 0, 0)
  }

  /** Every step has length 3 along exactly one of x and y, points the way its
      direction names, and never moves along z. */
  lemma StepShape(direction: MoveDirection)
    ensures var v := MapDirectionToVec3(direction);
      v.z == 0 &&
      ((v.x == 0 && (v.y == StepLength || v.y == -StepLength)) ||
       (v.y == 0 && (v.x == StepLength || v.x == -StepLength))) &&
      (v.y > 0 <==> direction == Up) && (v.y < 0 <==> direction == Down) &&
      (v.x < 0 <==> direction == Left) && (v.x > 0 <==> direction == Right)
  {
  }

  /** The four step values, for proofs about concrete levels. */
  lemma StepValues()
    ensures MapDirectionToVec3(Up) == Vec3(0, 3, 0)
    ensures MapDirectionToVec3(Down) == Vec3(0, -3, 0)
    ensures MapDirectionToVec3(Left) == Vec3(-3, 0, 0)
    ensures MapDirectionToVec3(Right) == Vec3(3, 0, 0)
  {
  }

  /** Opposite directions move by exactly opposite displacements. */
  lemma OppositeStepsCancel(direction: MoveDirection)
    ensures MapDirectionToVec3(Opposite(direction)) == Neg(MapDirectionToVec3(direction))
  {
  }

  /** The events sent for one frame: one per held key, polled in the order W, S, A, D. */
  function InputToEvent(keys: KeyState): seq<PlayerMoveEvent> {
    (if keys.w then [PlayerMoveEvent(Up)] else []) +
    (if keys.s then [PlayerMoveEvent(Down)] else []) +
    (if keys.a then [PlayerMoveEvent(Left)] else []) +
    (if keys.d then [PlayerMoveEvent(Right)] else [])
  }

  /** There are as many events as held keys, so never more than four, and none when
      no key is held. */
  lemma InputToEventCount(keys: KeyState)
    ensures |InputToEvent(keys)| == HeldCount(keys) <= 4
    ensures !keys.w && !keys.s && !keys.a && !keys.d ==> InputToEvent(keys) == []
  {
  }

  /** An event for a direction is sent exactly when that direction's key is held. */
  lemma InputToEventMembers(keys: KeyState)
    ensures forall direction :: PlayerMoveEvent(direction) in InputToEvent(keys) <==> Held(keys, direction)
  {
  }

  /** Events come strictly in the polling order Up, Down, Left, Right; in particular
      no direction is sent twice. */
  lemma InputToEventOrder(keys: KeyState)
    ensures forall i, j :: 0 <= i < j < |InputToEvent(keys)| ==>
      PollOrder(InputToEvent(keys)[i].direction) < PollOrder(InputToEvent(keys)[j].direction)
  {
  }

  /** Recovers the held keys from a frame's events. */
  function KeysOf(events: seq<PlayerMoveEvent>): KeyState {
    KeyState(PlayerMoveEvent(Up) in events, PlayerMoveEvent(Down) in events,
             PlayerMoveEvent(Left) in events, PlayerMoveEvent(Right) in events)
  }

  /** Decoding loses nothing: the held keys can be read back off the events. */
  lemma InputToEventRoundTrip(keys: KeyState)
    ensures KeysOf(InputToEvent(keys)) == keys
  {
    InputToEventMembers(keys);
  }
}
