/** The stepping rule the movement systems evidently aim for, next to the rule the
    code applies. The code commits the proposed step once per obstacle that the box,
    from wherever it currently is, would not overlap; the evident aim is one step per
    displacement, committed when the proposed box overlaps no obstacle at all. The two
    agree whenever the level has exactly one obstacle, as the shipped level does. */
module Intended {
  import opened Geometry
  import opened Input
  import opened Movement

  /** The box at `position` with size `scale` overlaps none of `obstacles`. */
  predicate ClearOfAll(position: Vec3, scale: Vec3, obstacles: seq<Transform>) {
    forall i :: 0 <= i < |obstacles| ==> !IsCollide(position, scale, obstacles[i])
  }

  /** The corrected step: at most one step, taken exactly when the proposed box is
      clear of every obstacle; a player clear of every obstacle stays clear. */
  function StepIfClear(t: Transform, delta: Vec3, obstacles: seq<Transform>): (r: Transform)
    ensures r.scale == t.scale
    ensures r.translation == t.translation || r.translation == Add(t.translation, delta)
    ensures r.translation == Add(t.translation, delta) <==>
      (delta == Zero || ClearOfAll(Add(t.translation, delta), t.scale, obstacles))
    ensures ClearOfAll(t.translation, t.scale, obstacles) ==> ClearOfAll(r.translation, r.scale, obstacles)
  {
    var candidate := Add(t.translation, delta);
    if ClearOfAll(candidate, t.scale, obstacles) then t.(translation := candidate) else t
  }

  /** The corrected move-event system for one player. */
  function IntendedMoveEvents(t: Transform, events: seq<PlayerMoveEvent>, obstacles: seq<Transform>): (r: Transform)
    ensures r.scale == t.scale
    ensures r.translation.z == t.translation.z
    ensures ClearOfAll(t.translation, t.scale, obstacles) ==> ClearOfAll(r.translation, r.scale, obstacles)
    decreases |events|
  {
    if |events| == 0 then t
    else
      var last := |events| - 1;
      StepIfClear(IntendedMoveEvents(t, events[..last], obstacles),
                  MapDirectionToVec3(events[last].direction), obstacles)
  }

  /** The corrected gravity pass for one player. */
  function IntendedGravityPass(t: Transform, obstacles: seq<Transform>): (r: Transform)
    ensures r.scale == t.scale
    ensures r.translation == t.translation || r.translation == Add(t.translation, Fall)
    ensures ClearOfAll(t.translation, t.scale, obstacles) ==> ClearOfAll(r.translation, r.scale, obstacles)
  {
    StepIfClear(t, Fall, obstacles)
  }

  /** With a single obstacle the code's rule and the corrected rule coincide. */
  lemma SingleObstacleAgrees(t: Transform, delta: Vec3, obstacle: Transform)
    ensures StepAgainstAll(t, delta, [obstacle]) == StepIfClear(t, delta, [obstacle])
  {
    assert [obstacle][..0] == [];
  }

  /** With no obstacles the code never moves the player, where the corrected rule
      always takes the step. */
  lemma EmptyLevelDisagrees(t: Transform, delta: Vec3)
    ensures StepAgainstAll(t, delta, []) == t
    ensures StepIfClear(t, delta, []).translation == Add(t.translation, delta)
  {
  }

  /** The smallest instance: holding D in a level without obstacles. */
  lemma EmptyLevelCounterexample(player: Transform, right: Vec3)
    requires player == Transform(Vec3(0, 0, 10), Vec3(100, 100, 0))
    requires right == MapDirectionToVec3(Right)
    ensures StepAgainstAll(player, right, []).translation == Vec3(0, 0, 10)
    ensures StepIfClear(player, right, []).translation == Vec3(3, 0, 10)
  {
    StepValues();
    EmptyLevelDisagrees(player, right);
  }

  /** Two obstacles where one step is clear of both but a second step runs into the
      first: the code takes both steps and ends inside the first obstacle; the
      corrected rule takes one step and stays clear. */
  lemma OvershootDisagrees(t: Transform, delta: Vec3, near: Transform, far: Transform)
    requires !IsCollide(Add(t.translation, delta), t.scale, near)
    requires !IsCollide(Add(t.translation, delta), t.scale, far)
    requires !IsCollide(Add(Add(t.translation, delta), delta), t.scale, far)
    requires IsCollide(Add(Add(t.translation, delta), delta), t.scale, near)
    ensures StepAgainstAll(t, delta, [near, far]).translation == Add(Add(t.translation, delta), delta)
    ensures IsCollide(StepAgainstAll(t, delta, [near, far]).translation, t.scale, near)
    ensures StepIfClear(t, delta, [near, far]).translation == Add(t.translation, delta)
    ensures ClearOfAll(StepIfClear(t, delta, [near, far]).translation, t.scale, [near, far])
  {
    assert [near, far][..1] == [near];
    assert [near][..0] == [];
    var once := StepAgainstAll(t, delta, [near]);
    assert StepAgainstAll(t, delta, []) == t;
    assert once == GuardedStep(t, delta, near);
    assert StepAgainstAll(t, delta, [near, far]) == GuardedStep(once, delta, far);
    var obstacles := [near, far];
    assert ClearOfAll(Add(t.translation, delta), t.scale, obstacles) by {
      forall i | 0 <= i < |obstacles|
        ensures !IsCollide(Add(t.translation, delta), t.scale, obstacles[i])
      {
        if i == 0 { assert obstacles[i] == near; } else { assert obstacles[i] == far; }
      }
    }
  }

  /** A 10 by 10 player at the origin, with one obstacle a step and a half to the
      right and one far off: the player at x = 0 or x = 3 is clear of both, at x = 6 it
      is clear of the far one but inside the near one. */
  lemma OvershootConfiguration(size: Vec3, near: Transform, far: Transform)
    requires size == Vec3(10, 10, 0)
    requires near == Transform(Vec3(15, 0, 0), Vec3(10, 10, 0))
    requires far == Transform(Vec3(1000, 0, 0), Vec3(10, 10, 0))
    ensures !IsCollide(Vec3(0, 0, 0), size, near) && !IsCollide(Vec3(0, 0, 0), size, far)
    ensures !IsCollide(Vec3(3, 0, 0), size, near) && !IsCollide(Vec3(3, 0, 0), size, far)
    ensures !IsCollide(Vec3(6, 0, 0), size, far) && IsCollide(Vec3(6, 0, 0), size, near)
  {
  }

  /** Holding D in that configuration: the code leaves the player at x = 6, inside the
      near obstacle; the corrected rule at x = 3. */
  lemma OvershootCounterexample(player: Transform, right: Vec3, near: Transform, far: Transform)
    requires player == Transform(Vec3(0, 0, 0), Vec3(10, 10, 0))
    requires near == Transform(Vec3(15, 0, 0), Vec3(10, 10, 0))
    requires far == Transform(Vec3(1000, 0, 0), Vec3(10, 10, 0))
    requires right == MapDirectionToVec3(Right)
    ensures StepAgainstAll(player, right, [near, far]).translation == Vec3(6, 0, 0)
    ensures IsCollide(StepAgainstAll(player, right, [near, far]).translation, player.scale, near)
    ensures StepIfClear(player, right, [near, far]).translation == Vec3(3, 0, 0)
  {
    StepValues();
    assert Add(player.translation, right) == Vec3(3, 0, 0);
    assert Add(Vec3(3, 0, 0), right) == Vec3(6, 0, 0);
    OvershootConfiguration(player.scale, near, far);
    OvershootDisagrees(player, right, near, far);
  }

  /** The overshoot depends on the order in which the obstacles are examined: with the
      far obstacle examined first, the second step is proposed against the near
      obstacle, overlaps it and is refused, so the code stops at x = 3, clear of both. */
  lemma OvershootNeedsNearFirst(player: Transform, right: Vec3, near: Transform, far: Transform)
    requires player == Transform(Vec3(0, 0, 0), Vec3(10, 10, 0))
    requires near == Transform(Vec3(15, 0, 0), Vec3(10, 10, 0))
    requires far == Transform(Vec3(1000, 0, 0), Vec3(10, 10, 0))
    requires right == MapDirectionToVec3(Right)
    ensures StepAgainstAll(player, right, [far, near]).translation == Vec3(3, 0, 0)
    ensures ClearOfAll(StepAgainstAll(player, right, [far, near]).translation, player.scale, [far, near])
  {
    StepValues();
    assert Add(player.translation, right) == Vec3(3, 0, 0);
    assert Add(Vec3(3, 0, 0), right) == Vec3(6, 0, 0);
    OvershootConfiguration(player.scale, near, far);
    assert [far, near][..1] == [far];
    assert [far][..0] == [];
    var once := StepAgainstAll(player, right, [far]);
    assert StepAgainstAll(player, right, []) == player;
    assert once == GuardedStep(player, right, far);
    assert once.translation == Vec3(3, 0, 0);
    assert StepAgainstAll(player, right, [far, near]) == GuardedStep(once, right, near);
    var obstacles := [far, near];
    assert ClearOfAll(Vec3(3, 0, 0), player.scale, obstacles) by {
      forall i | 0 <= i < |obstacles|
        ensures !IsCollide(Vec3(3, 0, 0), player.scale, obstacles[i])
      {
        if i == 0 { assert obstacles[i] == far; } else { assert obstacles[i] == near; }
      }
    }
  }
}
