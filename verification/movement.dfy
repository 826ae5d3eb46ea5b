/** The two movement systems: move events and gravity. Both follow one rule,
    applied once per obstacle in turn: propose a displacement from the player's
    current position and commit it unless the proposed box overlaps the obstacle
    being examined. Each examination starts from wherever the previous one left the
    player, so one displacement can be committed once per obstacle, and with no
    obstacles it is never committed. */
module Movement {
  import opened Geometry
  import opened Input

  /** The constant fall applied by one gravity pass. */
  const Fall := Vec3(0, -5, 0)

  /** One examination of one obstacle: the proposed position is committed exactly
      when the proposed box does not overlap `obstacle`; only the translation is written. */
  function GuardedStep(t: Transform, delta: Vec3, obstacle: Transform): (r: Transform)
    ensures r.scale == t.scale
    ensures r.translation == t.translation || r.translation == Add(t.translation, delta)
    ensures r.translation == Add(t.translation, delta) <==>
      (delta == Zero || !IsCollide(Add(t.translation, delta), t.scale, obstacle))
    ensures r != t ==> !IsCollide(r.translation, r.scale, obstacle)
  {
    var candidate := Add(t.translation, delta);
    if IsCollide(candidate, t.scale, obstacle) then t else t.(translation := candidate)
  }

  /** The inner obstacle loop for one displacement: every obstacle is examined in
      order, each from the position the examinations before it produced. */
  function StepAgainstAll(t: Transform, delta: Vec3, obstacles: seq<Transform>): (r: Transform)
    ensures r.scale == t.scale
    ensures delta.z == 0 ==> r.translation.z == t.translation.z
    decreases |obstacles|
  {
    if |obstacles| == 0 then t
    else
      var last := |obstacles| - 1;
      GuardedStep(StepAgainstAll(t, delta, obstacles[..last]), delta, obstacles[last])
  }

  /** The net effect of the obstacle loop is some whole number of steps, between none
      and one per obstacle. */
  lemma {:induction false} StepAgainstAllDisplacement(t: Transform, delta: Vec3, obstacles: seq<Transform>)
    ensures exists k: nat ::
      k <= |obstacles| &&
      StepAgainstAll(t, delta, obstacles).translation == Add(t.translation, Times(k, delta))
    decreases |obstacles|
  {
    if |obstacles| == 0 {
      assert StepAgainstAll(t, delta, obstacles).translation == Add(t.translation, Times(0, delta));
    } else {
      var last := |obstacles| - 1;
      StepAgainstAllDisplacement(t, delta, obstacles[..last]);
      var k: nat :| k <= last &&
        StepAgainstAll(t, delta, obstacles[..last]).translation == Add(t.translation, Times(k, delta));
      var r := StepAgainstAll(t, delta, obstacles);
      if r.translation == StepAgainstAll(t, delta, obstacles[..last]).translation {
        assert r.translation == Add(t.translation, Times(k, delta));
      } else {
        TimesSucc(k, delta);
        assert r.translation == Add(t.translation, Times(k + 1, delta));
      }
    }
  }

  /** When no obstacle overlaps any box along the path, every examination commits,
      so the player advances one full step per obstacle. */
  lemma {:induction false} StepAgainstAllFarObstacles(t: Transform, delta: Vec3, obstacles: seq<Transform>)
    requires forall i, k: nat :: 0 <= i < |obstacles| && 1 <= k <= |obstacles| ==>
      !IsCollide(Add(t.translation, Times(k, delta)), t.scale, obstacles[i])
    ensures StepAgainstAll(t, delta, obstacles).translation ==
      Add(t.translation, Times(|obstacles|, delta))
    decreases |obstacles|
  {
    if |obstacles| == 0 {
      assert Add(t.translation, Times(0, delta)) == t.translation;
    } else {
      var last := |obstacles| - 1;
      var prefix := obstacles[..last];
      forall i, k: nat | 0 <= i < |prefix| && 1 <= k <= |prefix|
        ensures !IsCollide(Add(t.translation, Times(k, delta)), t.scale, prefix[i])
      {
        assert prefix[i] == obstacles[i];
      }
      StepAgainstAllFarObstacles(t, delta, prefix);
      var before := StepAgainstAll(t, delta, prefix);
      TimesSucc(last, delta);
      assert Add(before.translation, delta) == Add(t.translation, Times(|obstacles|, delta));
      assert !IsCollide(Add(t.translation, Times(|obstacles|, delta)), t.scale, obstacles[last]);
    }
  }

  /** When the first step would overlap every obstacle, no examination commits and
      the player stays put. */
  lemma {:induction false} StepAgainstAllBlocked(t: Transform, delta: Vec3, obstacles: seq<Transform>)
    requires forall i :: 0 <= i < |obstacles| ==> IsCollide(Add(t.translation, delta), t.scale, obstacles[i])
    ensures StepAgainstAll(t, delta, obstacles) == t
    decreases |obstacles|
  {
    if |obstacles| != 0 {
      var last := |obstacles| - 1;
      var prefix := obstacles[..last];
      assert forall i :: 0 <= i < |prefix| ==> prefix[i] == obstacles[i];
      StepAgainstAllBlocked(t, delta, prefix);
      assert IsCollide(Add(t.translation, delta), t.scale, obstacles[last]);
    }
  }

  /** With no obstacles the obstacle loop never runs, whatever the displacement. */
  lemma NoObstaclesNoStep(t: Transform, delta: Vec3)
    ensures StepAgainstAll(t, delta, []) == t
  {
  }

  /** One player handling a frame's move events in the order they were sent. */
  function HandleMoveEvents(t: Transform, events: seq<PlayerMoveEvent>, obstacles: seq<Transform>): (r: Transform)
    ensures r.scale == t.scale
    ensures r.translation.z == t.translation.z
    decreases |events|
  {
    if |events| == 0 then t
    else
      var last := |events| - 1;
      StepAgainstAll(HandleMoveEvents(t, events[..last], obstacles),
                     MapDirectionToVec3(events[last].direction), obstacles)
  }

  /** The player loop for one displacement: players are moved independently. */
  function MoveEachPlayer(players: seq<Transform>, delta: Vec3, obstacles: seq<Transform>): seq<Transform> {
    seq(|players|, i requires 0 <= i < |players| => StepAgainstAll(players[i], delta, obstacles))
  }

  /** The move-event system: for each event, for each player, the obstacle loop. */
  function PlayerMoveEventHandler(players: seq<Transform>, events: seq<PlayerMoveEvent>,
                                  obstacles: seq<Transform>): (r: seq<Transform>)
    ensures |r| == |players|
    ensures forall i :: 0 <= i < |players| ==>
      r[i].scale == players[i].scale && r[i].translation.z == players[i].translation.z
    decreases |events|
  {
    if |events| == 0 then players
    else
      var last := |events| - 1;
      MoveEachPlayer(PlayerMoveEventHandler(players, events[..last], obstacles),
                     MapDirectionToVec3(events[last].direction), obstacles)
  }

  /** Swapping the event loop and the player loop changes nothing: each player ends
      where handling all events on its own would put it. */
  lemma {:induction false} PlayersMoveIndependently(players: seq<Transform>, events: seq<PlayerMoveEvent>,
                                                    obstacles: seq<Transform>)
    ensures forall i :: 0 <= i < |players| ==>
      PlayerMoveEventHandler(players, events, obstacles)[i] == HandleMoveEvents(players[i], events, obstacles)
    decreases |events|
  {
    if |events| != 0 {
      PlayersMoveIndependently(players, events[..|events| - 1], obstacles);
    }
  }

  /** The gravity system for one player: the obstacle loop with the constant fall. */
  function GravityPass(t: Transform, obstacles: seq<Transform>): Transform {
    StepAgainstAll(t, Fall, obstacles)
  }

  /** The gravity system: every player gets one pass. */
  function Gravity(players: seq<Transform>, obstacles: seq<Transform>): seq<Transform> {
    MoveEachPlayer(players, Fall, obstacles)
  }

  /** A gravity pass lowers the player by five units once per committed examination:
      x, z and the size never change, and y never increases. */
  lemma GravityDisplacement(t: Transform, obstacles: seq<Transform>)
    ensures var r := GravityPass(t, obstacles);
      r.scale == t.scale && r.translation.x == t.translation.x &&
      r.translation.z == t.translation.z && r.translation.y <= t.translation.y &&
      exists k: nat :: k <= |obstacles| && r.translation.y == t.translation.y - 5 * k
  {
    StepAgainstAllDisplacement(t, Fall, obstacles);
    var k: nat :| k <= |obstacles| &&
      GravityPass(t, obstacles).translation == Add(t.translation, Times(k, Fall));
    assert GravityPass(t, obstacles).translation.y == t.translation.y - 5 * k;
  }

  /** A move event displaces the player by some whole number of steps in the event's
      direction, between none and one per obstacle. */
  lemma MoveEventDisplacement(t: Transform, direction: MoveDirection, obstacles: seq<Transform>)
    ensures var r := HandleMoveEvents(t, [PlayerMoveEvent(direction)], obstacles);
      r.scale == t.scale &&
      exists k: nat :: k <= |obstacles| &&
        r.translation == Add(t.translation, Times(k, MapDirectionToVec3(direction)))
  {
    var events := [PlayerMoveEvent(direction)];
    assert events[..0] == [];
    StepAgainstAllDisplacement(t, MapDirectionToVec3(direction), obstacles);
  }

  /** With no obstacles neither system ever moves anybody. */
  lemma {:induction false} NoObstaclesNoMovement(players: seq<Transform>, events: seq<PlayerMoveEvent>)
    ensures PlayerMoveEventHandler(players, events, []) == players
    ensures Gravity(players, []) == players
    decreases |events|
  {
    if |events| != 0 {
      NoObstaclesNoMovement(players, events[..|events| - 1]);
    }
  }

  /** The move-event system written as the nested loops it is: events outermost,
      then players, then obstacles. */
  method RunPlayerMoveEventHandler(players: seq<Transform>, events: seq<PlayerMoveEvent>,
                                   obstacles: seq<Transform>) returns (out: seq<Transform>)
    ensures out == PlayerMoveEventHandler(players, events, obstacles)
  {
    out := players;
    for e := 0 to |events|
      invariant out == PlayerMoveEventHandler(players, events[..e], obstacles)
    {
      assert events[..e + 1][..e] == events[..e];
      var delta := MapDirectionToVec3(events[e].direction);
      var next := out;
      for p := 0 to |out|
        invariant |next| == |out|
        invariant forall i :: 0 <= i < p ==> next[i] == StepAgainstAll(out[i], delta, obstacles)
        invariant forall i :: p <= i < |out| ==> next[i] == out[i]
      {
        var current := out[p];
        for o := 0 to |obstacles|
          invariant current == StepAgainstAll(out[p], delta, obstacles[..o])
        {
          assert obstacles[..o + 1][..o] == obstacles[..o];
          current := GuardedStep(current, delta, obstacles[o]);
        }
        assert obstacles[..|obstacles|] == obstacles;
        next := next[p := current];
      }
      out := next;
    }
    assert events[..|events|] == events;
  }
}
