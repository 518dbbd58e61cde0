/** The player whose position and vertical state the physics updates in place. */
module PlayerBody {
  import opened Vectors
  import opened Collisions
  import opened Physics

  class Player {
    var x: real
    var y: real
    var z: real
    var velocityY: real
    var canJump: bool

    /** The abstract value of the player. */
    function State(): PlayerState
      reads this
    {
      PlayerState(Vec3(x, y, z), velocityY, canJump)
    }

    /** A player at `spawn`, at rest and not yet eligible to jump. */
    constructor (spawn: Vec3)
      ensures State() == PlayerState(spawn, 0.0, false)
      ensures Resting(State())
    {
      x, y, z := spawn.x, spawn.y, spawn.z;
      velocityY := 0.0;
      canJump := false;
    }

    /** applyGravity: scan the blocks in list order and clamp against the first one that
        qualifies at the tentative position. */
    method ApplyGravity(blocks: seq<Vec3>)
      modifies this
      ensures State() == GravityStep(old(State()), blocks)
      ensures x == old(x) && z == old(z)
    {
      velocityY := velocityY + Gravity;
      var nextY := y + velocityY;
      var collided := false;
      var i := 0;
      while i < |blocks|
        invariant 0 <= i <= |blocks|
        invariant !collided
        invariant x == old(x) && y == old(y) && z == old(z) && canJump == old(canJump)
        invariant velocityY == old(velocityY) + Gravity && nextY == y + velocityY
        invariant forall j :: 0 <= j < i ==> !Clamps(blocks[j], Vec3(x, nextY, z))
      {
        var block := blocks[i];
        var dx := x - block.x;
        var dz := z - block.z;
        var dy := nextY - block.y;
        if Abs(dx) < Reach && Abs(dz) < Reach {
          // landing on top of the block
          if velocityY <= 0.0 && dy <= PlayerHeight && dy > 0.0 {
            nextY := block.y + PlayerHeight;
            velocityY := 0.0;
            canJump := true;
            collided := true;
            break;
          }
          // head strike
          if velocityY > 0.0 && dy <= PlayerHeight && dy > 0.0 {
            nextY := block.y - HeadGap;
            velocityY := 0.0;
            collided := true;
            break;
          }
        }
        i := i + 1;
      }
      y := nextY;
      if !collided {
        canJump := false;
      }
    }

    /** moveWithCollision: resolve the forward step, then the right step, each kept only
        when its target collides with nothing. */
    method MoveWithCollision(blocks: seq<Vec3>, forwardVec: Vec3, rightVec: Vec3, speedZ: real, speedX: real)
      modifies this
      ensures State() == old(State()).(pos := HorizontalMove(blocks, old(State()).pos, forwardVec, rightVec, speedZ, speedX))
      ensures State().pos == old(State()).pos || !CheckCollision(blocks, State().pos)
    {
      var nextPos := Vec3(x, y, z);
      var forwardStep := Scale(forwardVec, speedZ);
      var rightStep := Scale(rightVec, speedX);

      var posForward := Add(nextPos, forwardStep);
      if !CheckCollision(blocks, posForward) {
        nextPos := posForward;
      }

      var posRight := Add(nextPos, rightStep);
      if !CheckCollision(blocks, posRight) {
        nextPos := posRight;
      }

      x, y, z := nextPos.x, nextPos.y, nextPos.z;
    }

    /** jump: launch when eligible, otherwise do nothing. */
    method Jump()
      modifies this
      ensures State() == JumpStep(old(State()))
      ensures old(canJump) ==> velocityY == JumpSpeed && !canJump
      ensures !old(canJump) ==> State() == old(State())
    {
      if canJump {
        velocityY := JumpSpeed;
        canJump := false;
      }
    }

    /** updatePlayerPhysics: gravity, then the held keys' motion along the view's
        level forward and right unit vectors. */
    method UpdatePlayerPhysics(blocks: seq<Vec3>, forwardVec: Vec3, rightVec: Vec3, keys: Keys)
      modifies this
      ensures State() == Tick(old(State()), blocks, forwardVec, rightVec, keys)
    {
      ApplyGravity(blocks);
      var moveX, moveZ := 0.0, 0.0;
      if keys.forward { moveZ := moveZ - Speed; }
      if keys.backward { moveZ := moveZ + Speed; }
      if keys.right { moveX := moveX + Speed; }
      if keys.left { moveX := moveX - Speed; }
      MoveWithCollision(blocks, forwardVec, rightVec, moveZ, moveX);
    }
  }

  /** The spawn fall, driven through the class: six gravity ticks bring the player to
      rest on the block below. */
  method SpawnFall() returns (landed: bool, height: real)
    ensures landed && height == 1.8
  {
    var ground := [Vec3(0.0, 0.0, 5.0)];
    var player := new Player(Vec3(0.0, 2.0, 5.0));
    var tick := 0;
    while tick < 6
      invariant 0 <= tick <= 6
      invariant tick < 6 ==> player.State() == PlayerState(Vec3(0.0, 2.0 - FallDistance(tick), 5.0), -0.01 * tick as real, false)
      invariant tick == 6 ==> player.State() == PlayerState(Vec3(0.0, 1.8, 5.0), 0.0, true)
    {
      player.ApplyGravity(ground);
      tick := tick + 1;
    }
    landed, height := player.canJump, player.y;
  }
}
