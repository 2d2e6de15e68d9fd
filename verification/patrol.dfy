/**
 * The two patrolling entities: platforms that may oscillate around their
 * start position and enemies that bounce between the screen edges.  Both move
 * first and decide to turn afterwards, so one frame may overshoot a bound.
 */
module Patrol {
  import opened Config
  import opened Geometry

  // ---------------------------------------------------------------- platforms

  datatype PlatformState = PlatformState(
    rect: Rect, isMoving: bool, startX: int, moveRange: int, speed: int, direction: int)

  /** The state `Platform(x, y, width, height, is_moving, move_range)` starts in. */
  function NewPlatform(x: int, y: int, w: int, h: int, isMoving: bool, moveRange: int): PlatformState
  {
    PlatformState(Rect(x, y, w, h), isMoving, x, moveRange, 1, 1)
  }

  /** One `Platform.update`. */
  function PlatformStep(p: PlatformState): PlatformState
  {
    if !p.isMoving then p
    else
      var moved := p.(rect := p.rect.(x := p.rect.x + p.speed * p.direction));
      if OutOfRange(moved) then moved.(direction := -p.direction) else moved
  }

  /** The platform is outside [startX, startX + moveRange]. */
  predicate OutOfRange(p: PlatformState)
  {
    p.rect.x > p.startX + p.moveRange || p.rect.x < p.startX
  }

  /** What a single update does to a platform. */
  lemma PlatformStepMoves(p: PlatformState)
    ensures !p.isMoving ==> PlatformStep(p) == p
    ensures p.isMoving ==>
      var q := PlatformStep(p);
      && q.rect.x == p.rect.x + p.speed * p.direction
      && q.rect.y == p.rect.y && q.rect.w == p.rect.w && q.rect.h == p.rect.h
      && q.isMoving && q.startX == p.startX && q.moveRange == p.moveRange && q.speed == p.speed
      && (q.direction != p.direction <==> p.direction != 0 && OutOfRange(q))
      && (p.direction in {-1, 1} ==> q.direction in {-1, 1})
  {
  }

  /**
   * The oscillation invariant of a moving platform: it is at most one pixel
   * outside [startX, startX + moveRange], and whenever it is outside it is
   * already heading back.
   */
  predicate PatrolInv(p: PlatformState)
  {
    && p.speed == 1
    && (p.direction == 1 || p.direction == -1)
    && p.moveRange >= 0
    && p.startX - 1 <= p.rect.x <= p.startX + p.moveRange + 1
    && (p.rect.x > p.startX + p.moveRange ==> p.direction == -1)
    && (p.rect.x < p.startX ==> p.direction == 1)
  }

  /** Static platforms never move; moving ones keep the oscillation invariant. */
  predicate PlatformInv(p: PlatformState)
  {
    p.isMoving ==> PatrolInv(p)
  }

  lemma PatrolInvStep(p: PlatformState)
    requires PlatformInv(p)
    ensures PlatformInv(PlatformStep(p))
  {
  }

  /** A freshly built moving platform with a non-negative range satisfies the invariant. */
  lemma NewPlatformInv(x: int, y: int, w: int, h: int, isMoving: bool, moveRange: int)
    requires moveRange >= 0
    ensures PlatformInv(NewPlatform(x, y, w, h, isMoving, moveRange))
  {
  }

  /** The platform after `n` frames. */
  function PlatformAfter(p: PlatformState, n: nat): PlatformState
  {
    if n == 0 then p else PlatformStep(PlatformAfter(p, n - 1))
  }

  lemma {:induction false} PlatformInvForever(p: PlatformState, n: nat)
    requires PlatformInv(p)
    ensures PlatformInv(PlatformAfter(p, n))
  {
    if n > 0 {
      PlatformInvForever(p, n - 1);
      PatrolInvStep(PlatformAfter(p, n - 1));
    }
  }

  /** A moving platform built at x never leaves [x - 1, x + moveRange + 1]. */
  lemma MovingPlatformStaysNearRange(x: int, y: int, w: int, h: int, moveRange: int, n: nat)
    requires moveRange >= 0
    ensures var q := PlatformAfter(NewPlatform(x, y, w, h, true, moveRange), n);
      x - 1 <= q.rect.x <= x + moveRange + 1 && q.rect.y == y
  {
    NewPlatformInv(x, y, w, h, true, moveRange);
    PlatformInvForever(NewPlatform(x, y, w, h, true, moveRange), n);
    PlatformKeepsRow(NewPlatform(x, y, w, h, true, moveRange), n);
  }

  lemma {:induction false} PlatformKeepsRow(p: PlatformState, n: nat)
    ensures var q := PlatformAfter(p, n);
      q.rect.y == p.rect.y && q.rect.w == p.rect.w && q.rect.h == p.rect.h
      && q.isMoving == p.isMoving && q.startX == p.startX && q.moveRange == p.moveRange
      && q.speed == p.speed
  {
    if n > 0 {
      PlatformKeepsRow(p, n - 1);
    }
  }

  /**
   * The first leg of a moving platform built at x: it walks right one pixel
   * per frame and turns exactly on frame moveRange + 1, one pixel past the
   * end of its range.
   */
  lemma {:induction false} PlatformFirstLeg(x: int, y: int, w: int, h: int, moveRange: int, k: nat)
    requires moveRange >= 0 && k <= moveRange + 1
    ensures var q := PlatformAfter(NewPlatform(x, y, w, h, true, moveRange), k);
      q.rect.x == x + k && q.direction == (if k <= moveRange then 1 else -1)
  {
    if k > 0 {
      PlatformFirstLeg(x, y, w, h, moveRange, k - 1);
      PlatformKeepsRow(NewPlatform(x, y, w, h, true, moveRange), k - 1);
    }
  }

  /** A pygame `Platform` sprite: `rect.x` and `direction` change in place. */
  class Platform {
    var rect: Rect
    var direction: int
    const isMoving: bool
    const startX: int
    const moveRange: int
    const speed: int

    function Model(): PlatformState
      reads this
    {
      PlatformState(rect, isMoving, startX, moveRange, speed, direction)
    }

    constructor (x: int, y: int, w: int, h: int, isMoving: bool, moveRange: int)
      ensures Model() == NewPlatform(x, y, w, h, isMoving, moveRange)
    {
      rect := Rect(x, y, w, h);
      this.isMoving := isMoving;
      startX := x;
      this.moveRange := moveRange;
      speed := 1;
      direction := 1;
    }

    method Update()
      modifies this
      ensures Model() == PlatformStep(old(Model()))
    {
      if isMoving {
        rect := rect.(x := rect.x + speed * direction);
        if OutOfRange(Model()) {
          direction := -direction;
        }
      }
    }
  }

  /** Every platform of `ps` updated once (`platforms.update()`). */
  function StepPlatforms(ps: seq<PlatformState>): (r: seq<PlatformState>)
    ensures |r| == |ps| && forall i :: 0 <= i < |ps| ==> r[i] == PlatformStep(ps[i])
  {
    if ps == [] then [] else StepPlatforms(ps[..|ps| - 1]) + [PlatformStep(ps[|ps| - 1])]
  }

  function PlatformRects(ps: seq<PlatformState>): (r: seq<Rect>)
    ensures |r| == |ps| && forall i :: 0 <= i < |ps| ==> r[i] == ps[i].rect
  {
    if ps == [] then [] else PlatformRects(ps[..|ps| - 1]) + [ps[|ps| - 1].rect]
  }

  // ------------------------------------------------------------------ enemies

  datatype EnemyState = EnemyState(rect: Rect, speed: int, direction: int)

  /** The state `Enemy(x, y, width, height)` starts in. */
  function NewEnemy(x: int, y: int, w: int, h: int): EnemyState
  {
    EnemyState(Rect(x, y, w, h), 2, 1)
  }

  /** One `Enemy.update`. */
  function EnemyStep(e: EnemyState): EnemyState
  {
    var moved := e.(rect := e.rect.(x := e.rect.x + e.speed * e.direction));
    if AtScreenEdge(moved.rect) then moved.(direction := -e.direction) else moved
  }

  /** The rectangle touches or passes the left or right screen edge. */
  predicate AtScreenEdge(r: Rect)
  {
    Right(r) >= ScreenWidth || Left(r) <= 0
  }

  /** What a single update does to an enemy. */
  lemma EnemyStepMoves(e: EnemyState)
    ensures var f := EnemyStep(e);
      && f.rect.x == e.rect.x + e.speed * e.direction
      && f.rect.y == e.rect.y && f.rect.w == e.rect.w && f.rect.h == e.rect.h && f.speed == e.speed
      && (f.direction != e.direction <==> e.direction != 0 && AtScreenEdge(f.rect))
      && (e.direction in {-1, 1} ==> f.direction in {-1, 1})
  {
  }

  /**
   * The bounce invariant of an enemy narrower than the screen: it is at most
   * one pixel past either edge, and at or past an edge it is heading back.
   */
  predicate EnemyInv(e: EnemyState)
  {
    && e.speed == 2
    && (e.direction == 1 || e.direction == -1)
    && 0 <= e.rect.w <= ScreenWidth - 4
    && -1 <= Left(e.rect) && Right(e.rect) <= ScreenWidth + 1
    && (Left(e.rect) <= 0 ==> e.direction == 1)
    && (Right(e.rect) >= ScreenWidth ==> e.direction == -1)
  }

  lemma EnemyInvStep(e: EnemyState)
    requires EnemyInv(e)
    ensures EnemyInv(EnemyStep(e))
  {
  }

  /** The enemy after `n` frames. */
  function EnemyAfter(e: EnemyState, n: nat): EnemyState
  {
    if n == 0 then e else EnemyStep(EnemyAfter(e, n - 1))
  }

  lemma {:induction false} EnemyInvForever(e: EnemyState, n: nat)
    requires EnemyInv(e)
    ensures EnemyInv(EnemyAfter(e, n))
  {
    if n > 0 {
      EnemyInvForever(e, n - 1);
      EnemyInvStep(EnemyAfter(e, n - 1));
    }
  }

  /** An enemy built strictly inside the screen stays within one pixel of it forever. */
  lemma EnemyStaysOnScreen(x: int, y: int, w: int, h: int, n: nat)
    requires 0 < x && 0 <= w <= ScreenWidth - 4 && x + w < ScreenWidth
    ensures var f := EnemyAfter(NewEnemy(x, y, w, h), n);
      -1 <= Left(f.rect) && Right(f.rect) <= ScreenWidth + 1
  {
    EnemyInvForever(NewEnemy(x, y, w, h), n);
  }

  /** A pygame `Enemy` sprite: `rect.x` and `direction` change in place. */
  class Enemy {
    var rect: Rect
    var direction: int
    const speed: int

    function Model(): EnemyState
      reads this
    {
      EnemyState(rect, speed, direction)
    }

    constructor (x: int, y: int, w: int, h: int)
      ensures Model() == NewEnemy(x, y, w, h)
    {
      rect := Rect(x, y, w, h);
      speed := 2;
      direction := 1;
    }

    method Update()
      modifies this
      ensures Model() == EnemyStep(old(Model()))
    {
      rect := rect.(x := rect.x + speed * direction);
      if AtScreenEdge(rect) {
        direction := -direction;
      }
    }
  }

  /** Every enemy of `es` updated once (`enemies.update()`). */
  function StepEnemies(es: seq<EnemyState>): (r: seq<EnemyState>)
    ensures |r| == |es| && forall i :: 0 <= i < |es| ==> r[i] == EnemyStep(es[i])
  {
    if es == [] then [] else StepEnemies(es[..|es| - 1]) + [EnemyStep(es[|es| - 1])]
  }

  function EnemyRects(es: seq<EnemyState>): (r: seq<Rect>)
    ensures |r| == |es| && forall i :: 0 <= i < |es| ==> r[i] == es[i].rect
  {
    if es == [] then [] else EnemyRects(es[..|es| - 1]) + [es[|es| - 1].rect]
  }
}
