/** One frame of the game, assuming the three per-frame systems run one after the
    other in the order they are registered: input decoding, the move-event handler,
    then gravity. The engine itself does not promise this order. */
module Frame {
  import opened Geometry
  import opened Input
  import opened Movement

  /** The players after one frame in which `keys` are held. */
  function RunFrame(keys: KeyState, players: seq<Transform>, obstacles: seq<Transform>): (r: seq<Transform>)
    ensures |r| == |players|
  {
    Gravity(PlayerMoveEventHandler(players, InputToEvent(keys), obstacles), obstacles)
  }

  /** A frame writes only positions, and never along z: every player keeps its size
      and its depth. */
  lemma FrameKeepsSizeAndDepth(keys: KeyState, players: seq<Transform>, obstacles: seq<Transform>)
    ensures forall i :: 0 <= i < |players| ==>
      RunFrame(keys, players, obstacles)[i].scale == players[i].scale &&
      RunFrame(keys, players, obstacles)[i].translation.z == players[i].translation.z
  {
    var events := InputToEvent(keys);
    PlayersMoveIndependently(players, events, obstacles);
  }

  /** With no key held, a frame is just a gravity pass. */
  lemma IdleFrameIsGravity(players: seq<Transform>, obstacles: seq<Transform>)
    ensures RunFrame(KeyState(false, false, false, false), players, obstacles) == Gravity(players, obstacles)
  {
  }

  /** In a level without obstacles no frame moves anybody, whatever is held. */
  lemma EmptyLevelFrameIsStill(keys: KeyState, players: seq<Transform>)
    ensures RunFrame(keys, players, []) == players
  {
    NoObstaclesNoMovement(players, InputToEvent(keys));
  }
}
