/** The collision predicates over the list of blocks, each block given by its centre. */
module Collisions {
  import opened Vectors

  datatype Option<T> = None | Some(value: T)

  /** `p` lies inside the block's footprint widened by the player radius, on both horizontal axes. */
  predicate HorizontalOverlap(block: Vec3, p: Vec3) {
    Abs(p.x - block.x) < Reach && Abs(p.z - block.z) < Reach
  }

  /** The exclusive vertical band in which a block obstructs the player. */
  predicate InVerticalBand(block: Vec3, p: Vec3) {
    StandTolerance < p.y - block.y < PlayerHeight - StandTolerance
  }

  /** The block obstructs a player at `p`. */
  predicate Obstructs(block: Vec3, p: Vec3) {
    HorizontalOverlap(block, p) && InVerticalBand(block, p)
  }

  /** checkCollision: some block in the list obstructs a player at `pos`. */
  function CheckCollision(blocks: seq<Vec3>, pos: Vec3): (hit: bool)
    ensures hit <==> exists i :: 0 <= i < |blocks| && Obstructs(blocks[i], pos)
    decreases |blocks|
  {
    if blocks == [] then false
    else Obstructs(blocks[0], pos) || CheckCollision(blocks[1..], pos)
  }

  /** The block stops vertical motion at the tentative position `p`: it overlaps
      horizontally and `p` lies above its centre by at most the player height. */
  predicate Clamps(block: Vec3, p: Vec3) {
    HorizontalOverlap(block, p) && 0.0 < p.y - block.y <= PlayerHeight
  }

  /** The index of the first block, in list order, that clamps a player at `p`. */
  function FirstClamp(blocks: seq<Vec3>, p: Vec3): (r: Option<nat>)
    ensures r.Some? ==> r.value < |blocks| && Clamps(blocks[r.value], p)
    ensures r.Some? ==> forall j :: 0 <= j < r.value ==> !Clamps(blocks[j], p)
    ensures r.None? ==> forall j :: 0 <= j < |blocks| ==> !Clamps(blocks[j], p)
    decreases |blocks|
  {
    if blocks == [] then None
    else if Clamps(blocks[0], p) then Some(0)
    else match FirstClamp(blocks[1..], p)
      case None => None
      case Some(k) => Some(k + 1)
  }

  /** A position whose vertical offset from every horizontally overlapping block is
      exactly the player height, or at most the stand tolerance, collides with nothing. */
  lemma StandingOnTopIsFree(blocks: seq<Vec3>, pos: Vec3)
    requires forall i :: 0 <= i < |blocks| && HorizontalOverlap(blocks[i], pos) ==>
               pos.y - blocks[i].y == PlayerHeight || pos.y - blocks[i].y <= StandTolerance
    ensures !CheckCollision(blocks, pos)
  {
  }

  /** CheckCollision in the source's literal numbers. */
  lemma CheckCollisionBand(blocks: seq<Vec3>, pos: Vec3)
    ensures CheckCollision(blocks, pos) <==>
      exists i :: 0 <= i < |blocks| &&
        Abs(pos.x - blocks[i].x) < 0.8 && Abs(pos.z - blocks[i].z) < 0.8 &&
        0.1 < pos.y - blocks[i].y < 1.7
  {
  }
}
