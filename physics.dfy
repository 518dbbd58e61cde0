/** The player's physics as functions on a value: the specification the `Player` class meets. */
module Physics {
  import opened Vectors
  import opened Collisions

  /** Position, vertical velocity and jump eligibility of the player. */
  datatype PlayerState = PlayerState(pos: Vec3, velocityY: real, canJump: bool)

  /** The four held movement keys. */
  datatype Keys = Keys(forward: bool, backward: bool, left: bool, right: bool)

  /** Signed per-tick speeds along the right (`moveX`) and forward (`moveZ`) axes. */
  datatype Speeds = Speeds(moveX: real, moveZ: real)

  /** The velocity after the gravity increment. */
  function FallVelocity(s: PlayerState): real {
    s.velocityY + Gravity
  }

  /** The position the player would reach this tick without any block. */
  function Tentative(s: PlayerState): Vec3 {
    s.pos.(y := s.pos.y + FallVelocity(s))
  }

  /** applyGravity: integrate the velocity, then clamp against the first block that
      overlaps the tentative position vertically. */
  function GravityStep(s: PlayerState, blocks: seq<Vec3>): (t: PlayerState)
    ensures t.pos.x == s.pos.x && t.pos.z == s.pos.z
  {
    var v := FallVelocity(s);
    var next := Tentative(s);
    match FirstClamp(blocks, next)
    case None => PlayerState(next, v, false)
    case Some(i) =>
      if v <= 0.0 then PlayerState(next.(y := blocks[i].y + PlayerHeight), 0.0, true)
      else PlayerState(next.(y := blocks[i].y - HeadGap), 0.0, s.canJump)
  }

  /** moveWithCollision: try the forward step, then the right step from wherever the
      first attempt left the player; keep each step only when it collides with nothing. */
  function HorizontalMove(blocks: seq<Vec3>, p: Vec3, forwardVec: Vec3, rightVec: Vec3,
                          speedZ: real, speedX: real): (q: Vec3)
    ensures var f := Scale(forwardVec, speedZ);
      var r := Scale(rightVec, speedX);
      q == p || q == Add(p, f) || q == Add(p, r) || q == Add(Add(p, f), r)
    ensures q == p || !CheckCollision(blocks, q)
  {
    var posForward := Add(p, Scale(forwardVec, speedZ));
    var afterForward := if !CheckCollision(blocks, posForward) then posForward else p;
    var posRight := Add(afterForward, Scale(rightVec, speedX));
    if !CheckCollision(blocks, posRight) then posRight else afterForward
  }

  /** jump: launch only when eligible. */
  function JumpStep(s: PlayerState): (t: PlayerState)
    ensures t.pos == s.pos && !t.canJump
  {
    if s.canJump then s.(velocityY := JumpSpeed, canJump := false) else s
  }

  /** The intent summation: each pressed key adds or subtracts `Speed` on its axis. */
  function IntentSpeeds(keys: Keys): (sp: Speeds)
    ensures sp.moveZ == -Speed <==> keys.forward && !keys.backward
    ensures sp.moveZ == Speed <==> keys.backward && !keys.forward
    ensures sp.moveZ == 0.0 <==> keys.forward == keys.backward
    ensures sp.moveX == Speed <==> keys.right && !keys.left
    ensures sp.moveX == -Speed <==> keys.left && !keys.right
    ensures sp.moveX == 0.0 <==> keys.left == keys.right
  {
    var moveZ := (if keys.forward then -Speed else 0.0) + (if keys.backward then Speed else 0.0);
    var moveX := (if keys.right then Speed else 0.0) + (if keys.left then -Speed else 0.0);
    Speeds(moveX, moveZ)
  }

  /** updatePlayerPhysics: gravity, then horizontal motion along the given unit vectors. */
  function Tick(s: PlayerState, blocks: seq<Vec3>, forwardVec: Vec3, rightVec: Vec3, keys: Keys): (t: PlayerState)
    ensures t.velocityY == GravityStep(s, blocks).velocityY && t.canJump == GravityStep(s, blocks).canJump
    ensures !CheckCollision(blocks, GravityStep(s, blocks).pos) ==> !CheckCollision(blocks, t.pos)
  {
    var g := GravityStep(s, blocks);
    var sp := IntentSpeeds(keys);
    g.(pos := HorizontalMove(blocks, g.pos, forwardVec, rightVec, sp.moveZ, sp.moveX))
  }

  /** Jump eligibility is only held while the player is at rest vertically. */
  predicate Resting(s: PlayerState) {
    s.canJump ==> s.velocityY == 0.0
  }

  // ---------------------------------------------------------------------------
  // Gravity
  // ---------------------------------------------------------------------------

  /** With no clamping block the player falls freely: the velocity loses exactly 0.01,
      y moves by the new velocity, and jump eligibility is lost. */
  lemma GravityFreeFall(s: PlayerState, blocks: seq<Vec3>)
    requires forall j :: 0 <= j < |blocks| ==> !Clamps(blocks[j], Tentative(s))
    ensures GravityStep(s, blocks) ==
      PlayerState(Vec3(s.pos.x, s.pos.y + (s.velocityY - 0.01), s.pos.z), s.velocityY - 0.01, false)
  {
  }

  /** Landing: moving down onto the first clamping block snaps the player on top of it. */
  lemma GravityLands(s: PlayerState, blocks: seq<Vec3>, i: nat)
    requires i < |blocks| && Clamps(blocks[i], Tentative(s))
    requires forall j :: 0 <= j < i ==> !Clamps(blocks[j], Tentative(s))
    requires s.velocityY - 0.01 <= 0.0
    ensures GravityStep(s, blocks) ==
      PlayerState(Vec3(s.pos.x, blocks[i].y + 1.8, s.pos.z), 0.0, true)
  {
  }

  /** Head strike: moving up into the first clamping block snaps the player just below its
      centre and keeps jump eligibility as it was. */
  lemma GravityHeadStrike(s: PlayerState, blocks: seq<Vec3>, i: nat)
    requires i < |blocks| && Clamps(blocks[i], Tentative(s))
    requires forall j :: 0 <= j < i ==> !Clamps(blocks[j], Tentative(s))
    requires s.velocityY - 0.01 > 0.0
    ensures GravityStep(s, blocks) ==
      PlayerState(Vec3(s.pos.x, blocks[i].y - 0.01, s.pos.z), 0.0, s.canJump)
  {
  }

  /** The block a head strike reacts to lies below the tentative position (the band is the
      landing band), and the snap puts the player below that block. */
  lemma HeadStrikeSnapsBelowBlock(s: PlayerState, blocks: seq<Vec3>)
    requires FirstClamp(blocks, Tentative(s)).Some? && FallVelocity(s) > 0.0
    ensures var b := blocks[FirstClamp(blocks, Tentative(s)).value];
      GravityStep(s, blocks).pos.y < b.y < Tentative(s).y
  {
  }

  /** Only the first clamping block matters: any list that agrees with `blocks` up to and
      including it gives the same result, whatever follows. */
  lemma GravityFirstWins(s: PlayerState, blocks: seq<Vec3>, other: seq<Vec3>, i: nat)
    requires FirstClamp(blocks, Tentative(s)) == Some(i)
    requires i < |other| && other[..i + 1] == blocks[..i + 1]
    ensures GravityStep(s, other) == GravityStep(s, blocks)
  {
    var p := Tentative(s);
    assert other[i] == other[..i + 1][i] == blocks[..i + 1][i] == blocks[i];
    forall j | 0 <= j < i ensures !Clamps(other[j], p) {
      assert other[j] == other[..i + 1][j] == blocks[..i + 1][j] == blocks[j];
    }
  }

  /** In particular, appending blocks after a clamping one changes nothing. */
  lemma GravityIgnoresLaterBlocks(s: PlayerState, blocks: seq<Vec3>, rest: seq<Vec3>)
    requires FirstClamp(blocks, Tentative(s)).Some?
    ensures GravityStep(s, blocks + rest) == GravityStep(s, blocks)
  {
    var i := FirstClamp(blocks, Tentative(s)).value;
    assert (blocks + rest)[..i + 1] == blocks[..i + 1];
    GravityFirstWins(s, blocks, blocks + rest, i);
  }

  /** After a clamp the player does not collide with the block that clamped it. */
  lemma ClampClearsBlock(s: PlayerState, blocks: seq<Vec3>)
    requires FirstClamp(blocks, Tentative(s)).Some?
    ensures !Obstructs(blocks[FirstClamp(blocks, Tentative(s)).value], GravityStep(s, blocks).pos)
  {
  }

  /** A gravity step can end in collision: a rising player above a one-block step, free
      at the start, strikes the step block from above and is snapped to 0.99, inside the
      blocking band of the ground block beneath. */
  lemma GravityCanEndInCollision()
    ensures var blocks := [Vec3(0.0, 0.0, 0.0), Vec3(0.0, 1.0, 0.0)];
      var s := PlayerState(Vec3(0.0, 2.7, 0.0), 0.1, false);
      !CheckCollision(blocks, s.pos) &&
      GravityStep(s, blocks).pos == Vec3(0.0, 0.99, 0.0) &&
      CheckCollision(blocks, GravityStep(s, blocks).pos)
  {
    var blocks := [Vec3(0.0, 0.0, 0.0), Vec3(0.0, 1.0, 0.0)];
    var s := PlayerState(Vec3(0.0, 2.7, 0.0), 0.1, false);
    assert !Clamps(blocks[0], Tentative(s)) && Clamps(blocks[1], Tentative(s));
    assert Obstructs(blocks[0], Vec3(0.0, 0.99, 0.0));
  }

  /** A player at rest on top of a block stays where it is and keeps (or gains) jump
      eligibility, when every other horizontally overlapping block is at the same level,
      more than 0.01 lower, or at least 1.79 higher (so that none of them clamps first). */
  lemma RestingIsStable(s: PlayerState, blocks: seq<Vec3>, i: nat)
    requires i < |blocks| && HorizontalOverlap(blocks[i], s.pos)
    requires s.velocityY == 0.0 && s.pos.y == blocks[i].y + PlayerHeight
    requires forall j :: 0 <= j < |blocks| && HorizontalOverlap(blocks[j], s.pos) ==>
               blocks[j].y == blocks[i].y || blocks[j].y < blocks[i].y - 0.01 ||
               blocks[j].y >= blocks[i].y + 1.79
    ensures GravityStep(s, blocks) == s.(canJump := true)
  {
    var p := Tentative(s);
    assert Clamps(blocks[i], p);
    var k := FirstClamp(blocks, p).value;
    assert blocks[k].y == blocks[i].y;
  }

  /** Jump eligibility comes out of a gravity step exactly when the step was a landing. */
  lemma GravityGrantsJumpOnlyOnLanding(s: PlayerState, blocks: seq<Vec3>)
    requires Resting(s)
    ensures GravityStep(s, blocks).canJump <==>
      FirstClamp(blocks, Tentative(s)).Some? && FallVelocity(s) <= 0.0
  {
  }

  /** `n` gravity steps in a row. */
  function Gravities(s: PlayerState, blocks: seq<Vec3>, n: nat): PlayerState
    decreases n
  {
    if n == 0 then s else GravityStep(Gravities(s, blocks, n - 1), blocks)
  }

  /** Distance fallen after `n` free-fall ticks from rest: 0.01 * n * (n + 1) / 2. */
  function FallDistance(n: nat): real {
    0.01 * (n * (n + 1)) as real / 2.0
  }

  /** In a column where no block overlaps the player horizontally, `n` ticks of gravity
      follow the closed form of uniformly accelerated motion, and jump eligibility is lost. */
  lemma {:induction false} FreeFallClosedForm(s: PlayerState, blocks: seq<Vec3>, n: nat)
    requires forall j :: 0 <= j < |blocks| ==> !HorizontalOverlap(blocks[j], s.pos)
    ensures var t := Gravities(s, blocks, n);
      t.pos == s.pos.(y := s.pos.y + n as real * s.velocityY - FallDistance(n)) &&
      t.velocityY == s.velocityY - 0.01 * n as real &&
      (n > 0 ==> !t.canJump)
  {
    if n > 0 {
      var m := n - 1;
      FreeFallClosedForm(s, blocks, m);
      var u := Gravities(s, blocks, m);
      assert forall j :: 0 <= j < |blocks| ==> !Clamps(blocks[j], Tentative(u));
      GravityFreeFall(u, blocks);
      FallArithmetic(s.pos.y, s.velocityY, m);
    }
  }

  /** One more free-fall tick extends the closed form from `m` to `m + 1` ticks. */
  lemma FallArithmetic(y: real, v: real, m: nat)
    ensures (y + m as real * v - FallDistance(m)) + ((v - 0.01 * m as real) - 0.01) ==
      y + (m + 1) as real * v - FallDistance(m + 1)
    ensures (v - 0.01 * m as real) - 0.01 == v - 0.01 * (m + 1) as real
  {
    var k := m as real;
    assert (m + 1) as real == k + 1.0;
    assert ((m + 1) * (m + 2)) as real == k * k + 3.0 * k + 2.0;
    assert (m * (m + 1)) as real == k * k + k;
  }

  // ---------------------------------------------------------------------------
  // Horizontal motion
  // ---------------------------------------------------------------------------

  /** A free position stays free through a move. */
  lemma MovePreservesFree(blocks: seq<Vec3>, p: Vec3, forwardVec: Vec3, rightVec: Vec3, speedZ: real, speedX: real)
    requires !CheckCollision(blocks, p)
    ensures !CheckCollision(blocks, HorizontalMove(blocks, p, forwardVec, rightVec, speedZ, speedX))
  {
  }

  /** With no blocks both steps are taken. */
  lemma MoveEmptyWorld(p: Vec3, forwardVec: Vec3, rightVec: Vec3, speedZ: real, speedX: real)
    ensures HorizontalMove([], p, forwardVec, rightVec, speedZ, speedX) ==
      Add(Add(p, Scale(forwardVec, speedZ)), Scale(rightVec, speedX))
  {
  }

  /** Horizontal step vectors never change the height. */
  lemma MoveKeepsHeight(blocks: seq<Vec3>, p: Vec3, forwardVec: Vec3, rightVec: Vec3, speedZ: real, speedX: real)
    requires forwardVec.y == 0.0 && rightVec.y == 0.0
    ensures HorizontalMove(blocks, p, forwardVec, rightVec, speedZ, speedX).y == p.y
  {
  }

  /** Per-axis resolution slides along a wall: a blocked forward step does not stop a free right step. */
  lemma MoveSlidesAlongWall(blocks: seq<Vec3>, p: Vec3, forwardVec: Vec3, rightVec: Vec3, speedZ: real, speedX: real)
    requires CheckCollision(blocks, Add(p, Scale(forwardVec, speedZ)))
    requires !CheckCollision(blocks, Add(p, Scale(rightVec, speedX)))
    ensures HorizontalMove(blocks, p, forwardVec, rightVec, speedZ, speedX) == Add(p, Scale(rightVec, speedX))
  {
  }

  /** A free forward step is kept; a free right step after it is kept too. */
  lemma MoveBothFree(blocks: seq<Vec3>, p: Vec3, forwardVec: Vec3, rightVec: Vec3, speedZ: real, speedX: real)
    requires !CheckCollision(blocks, Add(p, Scale(forwardVec, speedZ)))
    requires !CheckCollision(blocks, Add(Add(p, Scale(forwardVec, speedZ)), Scale(rightVec, speedX)))
    ensures HorizontalMove(blocks, p, forwardVec, rightVec, speedZ, speedX) ==
      Add(Add(p, Scale(forwardVec, speedZ)), Scale(rightVec, speedX))
  {
  }

  /** A free forward step is kept even when the right step after it is blocked. */
  lemma MoveSlidesForward(blocks: seq<Vec3>, p: Vec3, forwardVec: Vec3, rightVec: Vec3, speedZ: real, speedX: real)
    requires !CheckCollision(blocks, Add(p, Scale(forwardVec, speedZ)))
    requires CheckCollision(blocks, Add(Add(p, Scale(forwardVec, speedZ)), Scale(rightVec, speedX)))
    ensures HorizontalMove(blocks, p, forwardVec, rightVec, speedZ, speedX) == Add(p, Scale(forwardVec, speedZ))
  {
  }

  /** When both steps from the start are blocked the player does not move. */
  lemma MoveBothBlocked(blocks: seq<Vec3>, p: Vec3, forwardVec: Vec3, rightVec: Vec3, speedZ: real, speedX: real)
    requires CheckCollision(blocks, Add(p, Scale(forwardVec, speedZ)))
    requires CheckCollision(blocks, Add(p, Scale(rightVec, speedX)))
    ensures HorizontalMove(blocks, p, forwardVec, rightVec, speedZ, speedX) == p
  {
  }

  // ---------------------------------------------------------------------------
  // Jump and the whole tick
  // ---------------------------------------------------------------------------

  /** A jump launches exactly when eligible; otherwise it changes nothing. */
  lemma JumpLaunches(s: PlayerState)
    ensures s.canJump ==> JumpStep(s) == PlayerState(s.pos, 0.2, false)
    ensures !s.canJump ==> JumpStep(s) == s
  {
  }

  /** A second consecutive jump is a no-op. */
  lemma JumpTwiceIsOnce(s: PlayerState)
    ensures JumpStep(JumpStep(s)) == JumpStep(s)
  {
  }

  /** Every operation keeps jump eligibility tied to zero vertical velocity. */
  lemma RestingPreserved(s: PlayerState, blocks: seq<Vec3>, forwardVec: Vec3, rightVec: Vec3, keys: Keys)
    requires Resting(s)
    ensures Resting(GravityStep(s, blocks))
    ensures Resting(JumpStep(s))
    ensures Resting(Tick(s, blocks, forwardVec, rightVec, keys))
  {
  }

  /** A head strike never makes a resting player eligible to jump. */
  lemma HeadStrikeKeepsJumpDisabled(s: PlayerState, blocks: seq<Vec3>)
    requires Resting(s) && FallVelocity(s) > 0.0
    ensures !GravityStep(s, blocks).canJump
  {
  }

  /** With level step vectors a tick's vertical outcome is the gravity step's. */
  lemma TickVerticalIsGravity(s: PlayerState, blocks: seq<Vec3>, forwardVec: Vec3, rightVec: Vec3, keys: Keys)
    requires forwardVec.y == 0.0 && rightVec.y == 0.0
    ensures var t := Tick(s, blocks, forwardVec, rightVec, keys);
      var g := GravityStep(s, blocks);
      t.pos.y == g.pos.y && t.velocityY == g.velocityY && t.canJump == g.canJump
  {
    var g := GravityStep(s, blocks);
    var sp := IntentSpeeds(keys);
    MoveKeepsHeight(blocks, g.pos, forwardVec, rightVec, sp.moveZ, sp.moveX);
  }
}
