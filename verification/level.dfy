/** The level the game sets up: a 100 by 100 player at the origin at depth 10, and a
    single floor obstacle 10000 wide and 20 high centred 300 units below it at depth 0. */
module Level {
  import opened Geometry
  import opened Input
  import opened Movement

  /** The player's size. */
  const PlayerSize := Vec3(100, 100, 0)

  /** The floor's top face is at y = -290, so a resting player's centre is 50 above it. */
  const Floor := Transform(Vec3(0, -300, 0), Vec3(10000, 20, 0))

  /** Height at which the player comes to rest on the floor. */
  const RestingY := -240

  /** The player with its centre at (x, y), at its depth of 10. */
  function PlayerAt(x: int, y: int): Transform {
    Transform(Vec3(x, y, 10), PlayerSize)
  }

  /** `n` gravity passes in a row, with no movement input. */
  function GravityPasses(t: Transform, obstacles: seq<Transform>, n: nat): Transform
    decreases n
  {
    if n == 0 then t else GravityPasses(GravityPass(t, obstacles), obstacles, n - 1)
  }

  /** While a fall would not take the player below the resting height, the floor
      does not block it. */
  lemma FallsFreelyAboveFloor(x: int, y: int)
    requires y - 5 >= RestingY
    ensures GravityPass(PlayerAt(x, y), [Floor]) == PlayerAt(x, y - 5)
  {
    assert [Floor][..0] == [];
    assert StepAgainstAll(PlayerAt(x, y), Fall, []) == PlayerAt(x, y);
    assert !IsCollide(Vec3(x, y - 5, 10), PlayerSize, Floor);
  }

  /** At the resting height, anywhere above the floor's width, the next fall would
      sink into the floor, so a gravity pass leaves the player where it is. */
  lemma RestsOnFloor(x: int)
    requires -5050 < x < 5050
    ensures GravityPass(PlayerAt(x, RestingY), [Floor]) == PlayerAt(x, RestingY)
  {
    assert [Floor][..0] == [];
    assert StepAgainstAll(PlayerAt(x, RestingY), Fall, []) == PlayerAt(x, RestingY);
    assert IsCollide(Vec3(x, RestingY - 5, 10), PlayerSize, Floor);
  }

  /** A player that starts a whole number `n` of falls above the resting height lands
      there after `n` gravity passes. */
  lemma {:induction false} FallsOntoFloor(x: int, n: nat)
    ensures GravityPasses(PlayerAt(x, RestingY + 5 * n), [Floor], n) == PlayerAt(x, RestingY)
    decreases n
  {
    if n > 0 {
      FallsFreelyAboveFloor(x, RestingY + 5 * n);
      assert RestingY + 5 * n - 5 == RestingY + 5 * (n - 1);
      FallsOntoFloor(x, n - 1);
    }
  }

  /** Once resting on the floor, the player stays there for any number of passes. */
  lemma {:induction false} StaysOnFloor(x: int, n: nat)
    requires -5050 < x < 5050
    ensures GravityPasses(PlayerAt(x, RestingY), [Floor], n) == PlayerAt(x, RestingY)
    decreases n
  {
    if n > 0 {
      RestsOnFloor(x);
      StaysOnFloor(x, n - 1);
    }
  }

  /** From its starting position the player lands on the floor after 48 passes; a
      depth of 10 against the floor's 0 plays no part. */
  lemma StartLandsOnFloor()
    ensures GravityPasses(PlayerAt(0, 0), [Floor], 48) == PlayerAt(0, RestingY)
  {
    FallsOntoFloor(0, 48);
  }

  /** A player resting on the floor walks one step per held D key: the floor is the
      only obstacle, so the step is taken once. */
  lemma WalksAlongFloor(x: int)
    requires -5050 < x < 5050
    ensures HandleMoveEvents(PlayerAt(x, RestingY), [PlayerMoveEvent(Right)], [Floor]) ==
      PlayerAt(x + 3, RestingY)
  {
    var events := [PlayerMoveEvent(Right)];
    assert events[..0] == [];
    assert [Floor][..0] == [];
    var right := MapDirectionToVec3(Right);
    assert right == Vec3(3, 0, 0);
    assert StepAgainstAll(PlayerAt(x, RestingY), right, []) == PlayerAt(x, RestingY);
    assert !IsCollide(Vec3(x + 3, RestingY, 10), PlayerSize, Floor);
  }
}
