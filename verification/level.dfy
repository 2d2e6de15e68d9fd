/** The fixed level layout and the player's spawn point. */
module Level {
  import opened Config
  import opened Geometry
  import opened Patrol
  import opened Kinematics

  /** The six platforms `create_level` adds, in insertion order. */
  function LevelPlatforms(): seq<PlatformState>
  {
    [ NewPlatform(0, ScreenHeight - 20, ScreenWidth, 20, false, 100),  // ground
      NewPlatform(100, 500, 150, 20, false, 100),
      NewPlatform(550, 450, 150, 20, false, 100),
      NewPlatform(150, 300, 100, 20, false, 100),
      NewPlatform(400, 350, 100, 20, true, 200),
      NewPlatform(350, 150, 200, 20, true, 200) ]
  }

  /** The three enemies `create_level` adds, in insertion order. */
  function LevelEnemies(): seq<EnemyState>
  {
    [ NewEnemy(600, ScreenHeight - 40, 30, 20),
      NewEnemy(200, 480, 20, 20),
      NewEnemy(450, 330, 20, 20) ]
  }

  /** The player as `reset_game` leaves it. */
  function Spawn(): Body
  {
    FreshBody(SpawnX, SpawnY)
  }

  /**
   * The level is well formed: six platforms (two of them moving) and three
   * enemies, every one starting inside its patrol invariant, and the player
   * spawning at rest inside the screen.
   */
  lemma LevelWellFormed()
    ensures |LevelPlatforms()| == 6 && |LevelEnemies()| == 3
    ensures forall i :: 0 <= i < 6 ==> PlatformInv(LevelPlatforms()[i])
    ensures forall i :: 0 <= i < 6 ==> (LevelPlatforms()[i].isMoving <==> i >= 4)
    ensures forall i :: 0 <= i < 3 ==> EnemyInv(LevelEnemies()[i])
    ensures Spawn().rect == Rect(50, 540, PlayerWidth, PlayerHeight)
    ensures Spawn().velX == 0 && Spawn().velY == 0 && !Spawn().onGround
    ensures 0 <= Top(Spawn().rect) && Bottom(Spawn().rect) <= ScreenHeight
  {
    forall i | 0 <= i < 6
      ensures PlatformInv(LevelPlatforms()[i])
    {
      var p := LevelPlatforms()[i];
      NewPlatformInv(p.rect.x, p.rect.y, p.rect.w, p.rect.h, p.isMoving, p.moveRange);
    }
  }

  /**
   * Spawned standing on the ground platform, the player first sinks by less
   * than a pixel (cut off), is not on the ground for that frame, and lands
   * on the next one.
   */
  lemma SpawnSettlesOnGround()
    ensures var ground := [Rect(0, ScreenHeight - 20, ScreenWidth, 20)];
      var b1 := Step(Spawn(), ground);
      var b2 := Step(b1, ground);
      && b1 == Body(Rect(50, 540, PlayerWidth, PlayerHeight), 0, Gravity, false)
      && Bottom(b2.rect) == ScreenHeight - 20 && b2.velY == 0 && b2.onGround
  {
    var ground := [Rect(0, ScreenHeight - 20, ScreenWidth, 20)];
    var m1 := Integrate(Spawn());
    assert Resolve(m1, ground) == ResolveOne(m1, ground[0]);
    var b1 := Step(Spawn(), ground);
    var m2 := Integrate(b1);
    assert Resolve(m2, ground) == ResolveOne(m2, ground[0]);
  }

  /**
   * A jump from the spawn point of the level, standing on the ground: after
   * one update the player rises with the jump speed plus one frame of gravity
   * and is airborne.
   */
  lemma JumpFromSpawn()
    ensures var b := Step(JumpBody(Spawn().(onGround := true)), PlatformRects(LevelPlatforms()));
      b.velY == JumpStrength + Gravity && !b.onGround && b.rect.y == 525
  {
    var m := Integrate(JumpBody(Spawn().(onGround := true)));
    var rs := PlatformRects(LevelPlatforms());
    assert m.rect == Rect(50, 525, PlayerWidth, PlayerHeight);
    assert forall i :: 0 <= i < |rs| ==> !Collide(m.rect, rs[i]);
    assert FirstHit(m.rect, rs) == |rs|;
    ResolveFirstHit(m, rs);
  }
}
