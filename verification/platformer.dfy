/**
 * The game session: the START / RUNNING / GAME_OVER state machine, keyboard
 * events processed one by one in arrival order, and the RUNNING tick.
 */
module Platformer {
  import opened Config
  import opened Geometry
  import opened Patrol
  import opened Kinematics
  import opened Level

  datatype GameState = Start | Running | GameOver

  datatype Key = Space | LeftArrow | RightArrow | UpArrow | KeyZ | OtherKey

  /** An input event; `OtherEvent` stands for everything else, including QUIT. */
  datatype Event = KeyDown(key: Key) | KeyUp(key: Key) | OtherEvent

  datatype Session = Session(
    state: GameState, score: int, player: Body,
    platforms: seq<PlatformState>, enemies: seq<EnemyState>)

  /** `reset_game`: score 0, player back at the spawn point, level rebuilt. */
  function ResetSession(s: Session): Session
  {
    s.(score := 0, player := Spawn(), platforms := LevelPlatforms(), enemies := LevelEnemies())
  }

  /** The session `main` enters its loop with. */
  function Initial(): Session
  {
    Session(Start, 0, Spawn(), LevelPlatforms(), LevelEnemies())
  }

  /** One event of the event loop; the state is consulted afresh for each event. */
  function OnEvent(s: Session, e: Event): Session
  {
    if s.state == Start || s.state == GameOver then
      if e == KeyDown(Space) then
        (if s.state == GameOver then ResetSession(s) else s).(state := Running)
      else s
    else
      match e
      case KeyDown(k) =>
        if k == LeftArrow then s.(player := MoveBody(s.player, "left"))
        else if k == RightArrow then s.(player := MoveBody(s.player, "right"))
        else if k == UpArrow || k == KeyZ then s.(player := JumpBody(s.player))
        else s
      case KeyUp(k) =>
        if k == LeftArrow && s.player.velX < 0 then s.(player := MoveBody(s.player, "stop"))
        else if k == RightArrow && s.player.velX > 0 then s.(player := MoveBody(s.player, "stop"))
        else s
      case OtherEvent => s
  }

  /** The events of one frame, in arrival order. */
  function OnEvents(s: Session, events: seq<Event>): Session
  {
    if events == [] then s else OnEvent(OnEvents(s, events[..|events| - 1]), events[|events| - 1])
  }

  /**
   * The game logic of one frame: while RUNNING, platforms, then enemies, then
   * the player move; an enemy overlap ends the game; the score counts the frame.
   */
  function NextTick(s: Session): Session
  {
    if s.state != Running then s
    else
      var m := MoveSprites(s);
      m.(state := if HitsAny(m.player.rect, EnemyRects(m.enemies)) then GameOver else Running, score := s.score + 1)
  }

  /** The sprite updates of a RUNNING frame: platforms, then enemies, then the player against the moved platforms. */
  function MoveSprites(s: Session): Session
  {
    var ps := StepPlatforms(s.platforms);
    s.(platforms := ps, enemies := StepEnemies(s.enemies), player := Step(s.player, PlatformRects(ps)))
  }

  /** A RUNNING tick put together from its parts: the stepped groups, the moved player and the enemy check. */
  lemma TickComposes(s: Session, b: Body, ps: seq<PlatformState>, es: seq<EnemyState>, hit: bool)
    requires s.state == Running
    requires ps == StepPlatforms(s.platforms) && es == StepEnemies(s.enemies)
    requires b == Step(s.player, PlatformRects(ps)) && hit == HitsAny(b.rect, EnemyRects(es))
    ensures NextTick(s) == Session(if hit then GameOver else Running, s.score + 1, b, ps, es)
  {
  }

  /** One pass of the main loop: the frame's events, then its game logic. */
  function NextFrame(s: Session, events: seq<Event>): Session
  {
    NextTick(OnEvents(s, events))
  }

  // ------------------------------------------------------------ state machine

  /** SPACE on the start screen starts the game without a reset. */
  lemma SpaceStarts(s: Session)
    requires s.state == Start
    ensures OnEvent(s, KeyDown(Space)) == s.(state := Running)
  {
  }

  /** SPACE on the game-over screen starts a fresh game. */
  lemma SpaceRestarts(s: Session)
    requires s.state == GameOver
    ensures var r := OnEvent(s, KeyDown(Space));
      && r.state == Running && r.score == 0
      && r.player.rect == Rect(50, 540, PlayerWidth, PlayerHeight)
      && r.player.velX == 0 && r.player.velY == 0 && !r.player.onGround
      && r.platforms == LevelPlatforms() && r.enemies == LevelEnemies()
      && |r.platforms| == 6 && |r.enemies| == 3
  {
    LevelWellFormed();
  }

  /** Outside RUNNING every event but SPACE is ignored. */
  lemma IdleIgnoresInput(s: Session, e: Event)
    requires s.state != Running && e != KeyDown(Space)
    ensures OnEvent(s, e) == s
  {
  }

  /**
   * While RUNNING an event reaches only the player: the arrows set the
   * horizontal speed, UP and Z try to jump, and SPACE does nothing.
   */
  lemma RunningInputReachesPlayer(s: Session, e: Event)
    requires s.state == Running
    ensures var r := OnEvent(s, e);
      && r == s.(player := r.player)
      && (e == KeyDown(LeftArrow) ==> r.player == MoveBody(s.player, "left"))
      && (e == KeyDown(RightArrow) ==> r.player == MoveBody(s.player, "right"))
      && (e == KeyDown(UpArrow) || e == KeyDown(KeyZ) ==> r.player == JumpBody(s.player))
      && (e == KeyDown(Space) || e == KeyDown(OtherKey) || e == OtherEvent ==> r == s)
  {
  }

  /**
   * Releasing an arrow stops the player only if it is moving in that arrow's
   * direction, so releasing the inactive arrow keeps the current motion.
   */
  lemma ReleaseStopsOnlyActiveDirection(s: Session, k: Key)
    requires s.state == Running
    ensures var r := OnEvent(s, KeyUp(k));
      && (k == LeftArrow ==> r.player.velX == (if s.player.velX < 0 then 0 else s.player.velX))
      && (k == RightArrow ==> r.player.velX == (if s.player.velX > 0 then 0 else s.player.velX))
      && (k != LeftArrow && k != RightArrow ==> r == s)
      && r.player == s.player.(velX := r.player.velX)
  {
  }

  /** Outside RUNNING a tick moves nothing and scores nothing. */
  lemma TickIdleUnlessRunning(s: Session)
    requires s.state != Running
    ensures NextTick(s) == s
  {
  }

  /**
   * A RUNNING tick always scores one point, and ends the game exactly when
   * the moved player overlaps a moved enemy; the point is scored on that
   * tick too.
   */
  lemma TickScoresAndChecksEnemies(s: Session)
    requires s.state == Running
    ensures var r := NextTick(s);
      && r.score == s.score + 1
      && |r.enemies| == |s.enemies| && |r.platforms| == |s.platforms|
      && (r.state == GameOver <==> exists i :: 0 <= i < |r.enemies| && Collide(r.player.rect, r.enemies[i].rect))
      && (r.state == Running || r.state == GameOver)
  {
    var r := NextTick(s);
    var rs := EnemyRects(r.enemies);
    HitsAnyExists(r.player.rect, rs);
    if r.state == GameOver {
      var i :| 0 <= i < |rs| && Collide(r.player.rect, rs[i]);
      assert Collide(r.player.rect, r.enemies[i].rect);
    } else {
      forall i | 0 <= i < |r.enemies|
        ensures !Collide(r.player.rect, r.enemies[i].rect)
      {
        assert rs[i] == r.enemies[i].rect;
      }
    }
  }

  // ----------------------------------------------------------- the invariant

  /**
   * What holds of every session the game reaches: a non-negative score, the
   * player's size, its place between ceiling and floor, its capped fall
   * speed and one of the three horizontal speeds, the fixed numbers of
   * platforms and enemies, and each of them within its patrol invariant.
   */
  predicate SessionInv(s: Session)
  {
    && s.score >= 0
    && s.player.rect.w == PlayerWidth && s.player.rect.h == PlayerHeight
    && 0 <= Top(s.player.rect) && Bottom(s.player.rect) <= ScreenHeight
    && s.player.velY <= MaxFall
    && (s.player.velX == -PlayerSpeed || s.player.velX == 0 || s.player.velX == PlayerSpeed)
    && |s.platforms| == 6 && |s.enemies| == 3
    && (forall i :: 0 <= i < |s.platforms| ==> PlatformInv(s.platforms[i]))
    && (forall i :: 0 <= i < |s.enemies| ==> EnemyInv(s.enemies[i]))
  }

  lemma InitialInv()
    ensures SessionInv(Initial())
  {
    LevelWellFormed();
  }

  lemma OnEventPreservesInv(s: Session, e: Event)
    requires SessionInv(s)
    ensures SessionInv(OnEvent(s, e))
  {
    LevelWellFormed();
  }

  lemma NextTickPreservesInv(s: Session)
    requires SessionInv(s)
    ensures SessionInv(NextTick(s))
  {
    if s.state == Running {
      var ps := StepPlatforms(s.platforms);
      var es := StepEnemies(s.enemies);
      forall i | 0 <= i < |ps|
        ensures PlatformInv(ps[i])
      {
        PatrolInvStep(s.platforms[i]);
      }
      forall i | 0 <= i < |es|
        ensures EnemyInv(es[i])
      {
        EnemyInvStep(s.enemies[i]);
      }
      StepKinematics(s.player, PlatformRects(ps));
      StepInScreen(s.player, PlatformRects(ps));
    }
  }

  lemma {:induction false} OnEventsPreservesInv(s: Session, events: seq<Event>)
    requires SessionInv(s)
    ensures SessionInv(OnEvents(s, events))
  {
    if events != [] {
      OnEventsPreservesInv(s, events[..|events| - 1]);
      OnEventPreservesInv(OnEvents(s, events[..|events| - 1]), events[|events| - 1]);
    }
  }

  /** Every session reached from the initial one, frame after frame, keeps the invariant. */
  lemma NextFramePreservesInv(s: Session, events: seq<Event>)
    requires SessionInv(s)
    ensures SessionInv(NextFrame(s, events))
  {
    OnEventsPreservesInv(s, events);
    NextTickPreservesInv(OnEvents(s, events));
  }

  // --------------------------------------------------------- the main loop

  /** The six platform sprites `create_level` adds, in order. */
  method NewPlatforms() returns (ps: seq<Platform>)
    ensures |ps| == 6 && forall i :: 0 <= i < 6 ==> fresh(ps[i]) && ps[i].Model() == LevelPlatforms()[i]
    ensures forall i, j :: 0 <= i < j < 6 ==> ps[i] != ps[j]
  {
    var p0 := new Platform(0, ScreenHeight - 20, ScreenWidth, 20, false, 100);
    var p1 := new Platform(100, 500, 150, 20, false, 100);
    var p2 := new Platform(550, 450, 150, 20, false, 100);
    var p3 := new Platform(150, 300, 100, 20, false, 100);
    var p4 := new Platform(400, 350, 100, 20, true, 200);
    var p5 := new Platform(350, 150, 200, 20, true, 200);
    ps := [p0, p1, p2, p3, p4, p5];
  }

  /** The three enemy sprites `create_level` adds, in order. */
  method NewEnemies() returns (es: seq<Enemy>)
    ensures |es| == 3 && forall i :: 0 <= i < 3 ==> fresh(es[i]) && es[i].Model() == LevelEnemies()[i]
    ensures forall i, j :: 0 <= i < j < 3 ==> es[i] != es[j]
  {
    var e0 := new Enemy(600, ScreenHeight - 40, 30, 20);
    var e1 := new Enemy(200, 480, 20, 20);
    var e2 := new Enemy(450, 330, 20, 20);
    es := [e0, e1, e2];
  }

  /** The state `main` keeps: the globals `game_state` and `score`, the player and the sprite groups. */
  class Game {
    var state: GameState
    var score: int
    const player: Player
    var platforms: seq<Platform>
    var enemies: seq<Enemy>

    /** The abstract states of the sprites in the two groups, in order, and the sprites in use. */
    ghost var platformStates: seq<PlatformState>
    ghost var enemyStates: seq<EnemyState>
    ghost var Repr: set<object>

    /** Each group holds each of its sprites once, and the ghost states describe the sprites. */
    ghost predicate Valid()
      reads this`platforms, this`enemies, this`platformStates, this`enemyStates, this`Repr, Repr
    {
      this !in Repr && player in Repr && PlatformsValid() && EnemiesValid()
    }

    /** The platform group holds each platform once, each in `Repr`, described in order by `platformStates`. */
    ghost predicate PlatformsValid()
      reads this`platforms, this`platformStates, this`Repr, Repr
    {
      && |platforms| == |platformStates|
      && (forall i :: 0 <= i < |platforms| ==> platforms[i] in Repr && platforms[i].Model() == platformStates[i])
      && (forall i, j :: 0 <= i < j < |platforms| ==> platforms[i] != platforms[j])
    }

    /** The enemy group holds each enemy once, each in `Repr`, described in order by `enemyStates`. */
    ghost predicate EnemiesValid()
      reads this`enemies, this`enemyStates, this`Repr, Repr
    {
      && |enemies| == |enemyStates|
      && (forall i :: 0 <= i < |enemies| ==> enemies[i] in Repr && enemies[i].Model() == enemyStates[i])
      && (forall i, j :: 0 <= i < j < |enemies| ==> enemies[i] != enemies[j])
    }

    ghost function Model(): Session
      reads this`state, this`score, this`platformStates, this`enemyStates, player
    {
      Session(state, score, player.Model(), platformStates, enemyStates)
    }

    constructor ()
      ensures Valid() && fresh(Repr) && Model() == Initial()
    {
      state := Start;
      score := 0;
      player := new Player(SpawnX, SpawnY);
      platforms, enemies := [], [];
      platformStates, enemyStates := [], [];
      new;
      Repr := {player};
      Reset();
    }

    /** `create_level`: empty both groups and refill them with new sprites. */
    method CreateLevel()
      requires player in Repr && this !in Repr
      modifies this`platforms, this`enemies, this`platformStates, this`enemyStates, this`Repr
      ensures Valid() && fresh(Repr - old(Repr))
      ensures platformStates == LevelPlatforms() && enemyStates == LevelEnemies()
      ensures forall i :: 0 <= i < |platforms| ==> fresh(platforms[i])
      ensures forall i :: 0 <= i < |enemies| ==> fresh(enemies[i])
    {
      platforms := NewPlatforms();
      platformStates := LevelPlatforms();
      enemies := NewEnemies();
      enemyStates := LevelEnemies();
      Repr := Repr + (set p | p in platforms) + (set x | x in enemies);
    }

    /** `reset_game`. */
    method Reset()
      requires player in Repr && this !in Repr
      modifies this, player
      ensures Valid() && fresh(Repr - old(Repr))
      ensures Model() == ResetSession(old(Model()))
    {
      score := 0;
      player.Init(SpawnX, SpawnY);
      CreateLevel();
    }

    /** One event of the event loop. */
    method HandleEvent(e: Event)
      requires Valid()
      modifies this, Repr
      ensures Valid() && fresh(Repr - old(Repr))
      ensures Model() == OnEvent(old(Model()), e)
    {
      if state == Start || state == GameOver {
        if e == KeyDown(Space) {
          if state == GameOver {
            Reset();
          }
          state := Running;
        }
      } else if state == Running {
        match e {
          case KeyDown(k) =>
            if k == LeftArrow {
              player.Move("left");
            } else if k == RightArrow {
              player.Move("right");
            } else if k == UpArrow || k == KeyZ {
              player.Jump();
            }
          case KeyUp(k) =>
            if k == LeftArrow && player.velX < 0 {
              player.Move("stop");
            } else if k == RightArrow && player.velX > 0 {
              player.Move("stop");
            }
          case OtherEvent =>
        }
      }
    }

    /** The game logic of one frame (lines 289-303 of `main`). */
    method Tick()
      requires Valid()
      modifies this`state, this`score, this`platformStates, this`enemyStates, Repr
      ensures Valid() && Repr == old(Repr)
      ensures Model() == NextTick(old(Model()))
    {
      if state == Running {
        ghost var s := Model();
        RunningTick();
        TickComposes(s, player.Model(), platformStates, enemyStates, state == GameOver);
      }
    }

    /** The RUNNING branch of the tick: sprites update, the enemy check, the score. */
    method RunningTick()
      requires Valid() && state == Running
      modifies this`state, this`score, this`platformStates, this`enemyStates, Repr
      ensures Valid() && Repr == old(Repr)
      ensures platformStates == StepPlatforms(old(platformStates)) && enemyStates == StepEnemies(old(enemyStates))
      ensures player.Model() == Step(old(player.Model()), PlatformRects(platformStates))
      ensures state == (if HitsAny(player.rect, EnemyRects(enemyStates)) then GameOver else Running)
      ensures score == old(score) + 1
    {
      UpdateSprites();
      Conclude();
    }

    /** Steps 2 and 3 of the RUNNING tick: an enemy overlapping the player ends the game, and the frame scores a point either way. */
    method Conclude()
      requires Valid()
      modifies this`state, this`score
      ensures Valid()
      ensures state == (if HitsAny(player.rect, EnemyRects(enemyStates)) then GameOver else old(state))
      ensures score == old(score) + 1
    {
      var hit := HitsEnemy();
      if hit {
        state := GameOver;
      }
      score := score + 1;
    }

    /** Step 1 of the RUNNING tick: platforms, then enemies, then the player against the moved platforms. */
    method UpdateSprites()
      requires Valid()
      modifies this`platformStates, this`enemyStates, Repr
      ensures Valid() && Repr == old(Repr)
      ensures platformStates == StepPlatforms(old(platformStates))
      ensures enemyStates == StepEnemies(old(enemyStates))
      ensures player.Model() == Step(old(player.Model()), PlatformRects(platformStates))
    {
      UpdatePlatforms();
      UpdateEnemies();
      UpdatePlayer();
    }

    /** `player.update(platforms)`, against the platforms as they stand after their own update. */
    method UpdatePlayer()
      requires Valid()
      modifies player
      ensures Valid()
      ensures player.Model() == Step(old(player.Model()), PlatformRects(platformStates))
    {
      player.Update(platforms, PlatformRects(platformStates));
    }

    /** `spritecollide(player, enemies, False)` is non-empty: some enemy of the group overlaps the player. */
    method HitsEnemy() returns (hit: bool)
      requires Valid()
      ensures hit == HitsAny(player.rect, EnemyRects(enemyStates))
    {
      ghost var rs := EnemyRects(enemyStates);
      hit := false;
      for i := 0 to |enemies|
        invariant hit == HitsAny(player.rect, rs[..i])
      {
        assert rs[..i + 1][..i] == rs[..i];
        hit := hit || Collide(player.rect, enemies[i].rect);
      }
      assert rs[..|enemies|] == rs;
    }

    /** `platforms.update()`: every platform of the group updated once. */
    method UpdatePlatforms()
      requires Valid()
      modifies this`platformStates, platforms
      ensures Valid() && platformStates == StepPlatforms(old(platformStates))
      ensures unchanged(player)
    {
      for i := 0 to |platforms|
        invariant platformStates == old(platformStates)
        invariant forall j :: 0 <= j < i ==> platforms[j].Model() == PlatformStep(platformStates[j])
        invariant forall j :: i <= j < |platforms| ==> platforms[j].Model() == platformStates[j]
      {
        platforms[i].Update();
      }
      platformStates := StepPlatforms(platformStates);
    }

    /** `enemies.update()`: every enemy of the group updated once. */
    method UpdateEnemies()
      requires Valid()
      modifies this`enemyStates, enemies
      ensures Valid() && enemyStates == StepEnemies(old(enemyStates))
      ensures unchanged(player)
    {
      for i := 0 to |enemies|
        invariant enemyStates == old(enemyStates)
        invariant forall j :: 0 <= j < i ==> enemies[j].Model() == EnemyStep(enemyStates[j])
        invariant forall j :: i <= j < |enemies| ==> enemies[j].Model() == enemyStates[j]
      {
        enemies[i].Update();
      }
      enemyStates := StepEnemies(enemyStates);
    }

    /** One pass of the main loop without drawing: the pending events in order, then the tick. */
    method Frame(events: seq<Event>)
      requires Valid()
      modifies this, Repr
      ensures Valid() && fresh(Repr - old(Repr))
      ensures Model() == NextFrame(old(Model()), events)
    {
      for i := 0 to |events|
        invariant Valid() && fresh(Repr - old(Repr))
        invariant Model() == OnEvents(old(Model()), events[..i])
      {
        HandleEvent(events[i]);
        assert events[..i + 1][..i] == events[..i];
      }
      assert events[..|events|] == events;
      Tick();
    }
  }
}
