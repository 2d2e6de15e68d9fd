/**
 * The player's kinematic body: horizontal stepping, gravity with a terminal
 * fall speed, vertical-only resolution against platforms and the screen's
 * floor and ceiling, and the jump gate.
 */
module Kinematics {
  import opened Config
  import opened Geometry
  import opened Patrol

  /** `velY` is in tenths of a pixel per frame (see Config); `velX` in whole pixels. */
  datatype Body = Body(rect: Rect, velX: int, velY: int, onGround: bool)

  /** A player object as `Player(x, y)` leaves it. */
  function FreshBody(x: int, y: int): Body
  {
    Body(Rect(x, y, PlayerWidth, PlayerHeight), 0, 0, false)
  }

  /**
   * The pixel coordinate pygame stores for a float coordinate given in
   * tenths: the fraction is cut off toward zero.
   */
  function PixelOf(tenths: int): (p: int)
    ensures tenths >= 0 ==> 0 <= 10 * p <= tenths < 10 * p + 10
    ensures tenths < 0 ==> 10 * p - 10 < tenths <= 10 * p <= 0
  {
    if tenths >= 0 then tenths / 10 else -((-tenths) / 10)
  }

  /**
   * Steps 1 to 3 of `Player.update`: move by velX, add gravity capped at the
   * terminal fall speed, move by velY, and clear `onGround`.
   */
  function Integrate(b: Body): (r: Body)
    ensures r.rect.x == b.rect.x + b.velX && r.rect.w == b.rect.w && r.rect.h == b.rect.h
    ensures r.velX == b.velX && !r.onGround
    ensures r.velY <= MaxFall && r.velY <= b.velY + Gravity
    ensures b.velY + Gravity <= MaxFall ==> r.velY == b.velY + Gravity
    ensures b.velY + Gravity > MaxFall ==> r.velY == MaxFall
    ensures r.rect.y == PixelOf(10 * b.rect.y + r.velY)
  {
    var vy := if b.velY + Gravity > MaxFall then MaxFall else b.velY + Gravity;
    Body(b.rect.(x := b.rect.x + b.velX, y := PixelOf(10 * b.rect.y + vy)), b.velX, vy, false)
  }

  /** Resolution of the body against one platform rectangle. */
  function ResolveOne(b: Body, p: Rect): (r: Body)
    ensures r.rect.x == b.rect.x && r.rect.w == b.rect.w && r.rect.h == b.rect.h && r.velX == b.velX
    ensures !Collide(b.rect, p) || b.velY == 0 ==> r == b
    ensures Collide(b.rect, p) && b.velY > 0 ==>
      Bottom(r.rect) == Top(p) && r.velY == 0 && r.onGround
    ensures Collide(b.rect, p) && b.velY < 0 ==>
      Top(r.rect) == Bottom(p) && r.velY == 0 && r.onGround == b.onGround
  {
    if !Collide(b.rect, p) then b
    else if b.velY > 0 then b.(rect := WithBottom(b.rect, Top(p)), velY := 0, onGround := true)
    else if b.velY < 0 then b.(rect := WithTop(b.rect, Bottom(p)), velY := 0)
    else b
  }

  /** Step 4: resolve against every platform in order, each seeing the earlier corrections. */
  function Resolve(b: Body, ps: seq<Rect>): Body
  {
    if ps == [] then b else ResolveOne(Resolve(b, ps[..|ps| - 1]), ps[|ps| - 1])
  }

  /** Step 5: clamp to the screen's floor, then to its ceiling. */
  function ClampToScreen(b: Body): (r: Body)
    ensures r.rect.x == b.rect.x && r.rect.w == b.rect.w && r.rect.h == b.rect.h && r.velX == b.velX
    ensures 0 <= b.rect.h <= ScreenHeight ==> 0 <= Top(r.rect) && Bottom(r.rect) <= ScreenHeight
    ensures r.onGround <==> b.onGround || Bottom(b.rect) > ScreenHeight
    ensures r.velY == b.velY || r.velY == 0
    ensures 0 <= Top(b.rect) && Bottom(b.rect) <= ScreenHeight ==> r == b
    ensures 0 <= b.rect.h <= ScreenHeight && Bottom(b.rect) > ScreenHeight ==>
      Bottom(r.rect) == ScreenHeight && r.velY == 0
    ensures 0 <= b.rect.h <= ScreenHeight && Top(b.rect) < 0 ==> Top(r.rect) == 0 && r.velY == 0
  {
    var b1 := if Bottom(b.rect) > ScreenHeight
      then b.(rect := WithBottom(b.rect, ScreenHeight), velY := 0, onGround := true)
      else b;
    if Top(b1.rect) < 0 then b1.(rect := WithTop(b1.rect, 0), velY := 0) else b1
  }

  /** One full `Player.update(platforms)`. */
  function Step(b: Body, ps: seq<Rect>): Body
  {
    ClampToScreen(Resolve(Integrate(b), ps))
  }

  /** The index of the first rectangle of `ps` that `r` overlaps, or |ps| if none. */
  function FirstHit(r: Rect, ps: seq<Rect>): (k: nat)
    ensures k <= |ps| && (k < |ps| ==> Collide(r, ps[k]))
    ensures forall i :: 0 <= i < k ==> !Collide(r, ps[i])
  {
    if ps == [] then 0 else if Collide(r, ps[0]) then 0 else 1 + FirstHit(r, ps[1..])
  }

  lemma {:induction false} ResolveOnlyAt(b: Body, ps: seq<Rect>, k: nat)
    requires k <= |ps| && (k < |ps| ==> Collide(b.rect, ps[k]))
    requires forall i :: 0 <= i < k ==> !Collide(b.rect, ps[i])
    ensures Resolve(b, ps) == if k < |ps| then ResolveOne(b, ps[k]) else b
  {
    if ps != [] {
      var n := |ps|;
      var pre := ps[..n - 1];
      if k < n - 1 {
        ResolveOnlyAt(b, pre, k);
        var c := ResolveOne(b, ps[k]);
        assert c.velY == 0;
      } else {
        ResolveOnlyAt(b, pre, n - 1);
      }
    }
  }

  /**
   * Only the first platform the body overlaps can adjust it: both resolving
   * branches zero velY, after which later platforms change nothing.
   */
  lemma ResolveFirstHit(b: Body, ps: seq<Rect>)
    ensures var k := FirstHit(b.rect, ps);
      Resolve(b, ps) == if k < |ps| then ResolveOne(b, ps[k]) else b
  {
    ResolveOnlyAt(b, ps, FirstHit(b.rect, ps));
  }

  /**
   * After an update the fall speed is capped, x has moved by exactly velX,
   * the size and velX are unchanged, and there is no horizontal clamp.
   */
  lemma StepKinematics(b: Body, ps: seq<Rect>)
    ensures var r := Step(b, ps);
      && r.velY <= MaxFall
      && r.rect.x == b.rect.x + b.velX
      && r.rect.w == b.rect.w && r.rect.h == b.rect.h && r.velX == b.velX
  {
    ResolveFirstHit(Integrate(b), ps);
  }

  /** After an update the body lies between the screen's ceiling and floor. */
  lemma StepInScreen(b: Body, ps: seq<Rect>)
    requires 0 <= b.rect.h <= ScreenHeight
    ensures 0 <= Top(Step(b, ps).rect) && Bottom(Step(b, ps).rect) <= ScreenHeight
  {
    ResolveFirstHit(Integrate(b), ps);
  }

  /** `onGround` holds after an update iff it landed on a platform or hit the floor in that update. */
  lemma StepOnGround(b: Body, ps: seq<Rect>)
    ensures var m := Integrate(b);
      Step(b, ps).onGround <==>
        (m.velY > 0 && FirstHit(m.rect, ps) < |ps|) || Bottom(Resolve(m, ps).rect) > ScreenHeight
  {
    ResolveFirstHit(Integrate(b), ps);
  }

  /**
   * A player standing still on a platform does not stay on the ground: the
   * first update adds less than a pixel, which is cut off, so the player
   * only touches the platform and is airborne (a jump in that frame is
   * ignored); the next update sinks it one pixel and lands it back where it
   * stood.  Standing alternates between the two states frame by frame.
   * `ps[k]` is the platform underfoot: no platform overlaps the standing
   * player, and none before `ps[k]` overlaps it one pixel lower.
   */
  lemma StandingFlickers(b: Body, ps: seq<Rect>, k: nat)
    requires b.velX == 0 && b.velY == 0 && 0 <= b.rect.y && 0 < b.rect.h
    requires k < |ps| && 0 < ps[k].h
    requires Bottom(b.rect) == Top(ps[k]) && Top(ps[k]) <= ScreenHeight
    requires Left(b.rect) < Right(ps[k]) && Left(ps[k]) < Right(b.rect)
    requires forall i :: 0 <= i < |ps| ==> !Collide(b.rect, ps[i])
    requires forall i :: 0 <= i < k ==> !Collide(b.rect.(y := b.rect.y + 1), ps[i])
    ensures var b1 := Step(b, ps);
      && b1 == b.(velY := Gravity, onGround := false)
      && JumpBody(b1) == b1
      && Step(b1, ps) == b.(onGround := true)
  {
    var m1 := Integrate(b);
    assert m1.rect == b.rect;
    ResolveOnlyAt(m1, ps, |ps|);
    var b1 := Step(b, ps);
    var m2 := Integrate(b1);
    assert m2.rect == b.rect.(y := b.rect.y + 1);
    ResolveOnlyAt(m2, ps, k);
  }

  /** `Player.move`: only the three commands change velX, and only velX changes. */
  function MoveBody(b: Body, direction: string): Body
  {
    if direction == "left" then b.(velX := -PlayerSpeed)
    else if direction == "right" then b.(velX := PlayerSpeed)
    else if direction == "stop" then b.(velX := 0)
    else b
  }

  lemma MoveSetsVelocity(b: Body, direction: string)
    ensures MoveBody(b, direction) == b.(velX := MoveBody(b, direction).velX)
    ensures direction == "left" ==> MoveBody(b, direction).velX == -PlayerSpeed
    ensures direction == "right" ==> MoveBody(b, direction).velX == PlayerSpeed
    ensures direction == "stop" ==> MoveBody(b, direction).velX == 0
    ensures direction !in {"left", "right", "stop"} ==> MoveBody(b, direction) == b
  {
  }

  /** A later move command overrides an earlier one. */
  lemma MoveLastWins(b: Body, first: string, second: string)
    requires second in {"left", "right", "stop"}
    ensures MoveBody(MoveBody(b, first), second) == MoveBody(b, second)
  {
  }

  /** `Player.jump`: the only gate against mid-air jumps. */
  function JumpBody(b: Body): Body
  {
    if b.onGround then b.(velY := JumpStrength, onGround := false) else b
  }

  lemma JumpGate(b: Body)
    ensures JumpBody(b) != b <==> b.onGround
    ensures b.onGround ==> JumpBody(b).velY == JumpStrength && !JumpBody(b).onGround
    ensures JumpBody(b).rect == b.rect && JumpBody(b).velX == b.velX
    ensures JumpBody(JumpBody(b)) == JumpBody(b)
  {
  }

  /** A pygame `Player` sprite: every field changes in place. */
  class Player {
    var rect: Rect
    var velX: int
    var velY: int
    var onGround: bool

    function Model(): Body
      reads this
    {
      Body(rect, velX, velY, onGround)
    }

    constructor (x: int, y: int)
      ensures Model() == FreshBody(x, y)
    {
      rect := Rect(x, y, PlayerWidth, PlayerHeight);
      velX, velY := 0, 0;
      onGround := false;
    }

    /** `player.__init__(x, y)` called again on the same object. */
    method Init(x: int, y: int)
      modifies this
      ensures Model() == FreshBody(x, y)
    {
      rect := Rect(x, y, PlayerWidth, PlayerHeight);
      velX, velY := 0, 0;
      onGround := false;
    }

    /** `update(platforms)`; `rects` names the platforms' rectangles for the contract. */
    method Update(platforms: seq<Platform>, ghost rects: seq<Rect>)
      requires |rects| == |platforms| && forall i :: 0 <= i < |platforms| ==> platforms[i].rect == rects[i]
      modifies this
      ensures Model() == Step(old(Model()), rects)
    {
      ghost var start := Model();
      rect := rect.(x := rect.x + velX);
      velY := velY + Gravity;
      if velY > MaxFall {
        velY := MaxFall;
      }
      rect := rect.(y := PixelOf(10 * rect.y + velY));
      onGround := false;
      ghost var moved := Model();
      assert moved == Integrate(start);

      for i := 0 to |platforms|
        invariant Model() == Resolve(moved, rects[..i])
      {
        ResolveAgainst(platforms[i].rect);
        assert rects[..i + 1][..i] == rects[..i];
      }
      assert rects[..|platforms|] == rects;
      ghost var resolved := Model();

      if Bottom(rect) > ScreenHeight {
        rect := WithBottom(rect, ScreenHeight);
        velY := 0;
        onGround := true;
      }
      if Top(rect) < 0 {
        rect := WithTop(rect, 0);
        velY := 0;
      }
      assert Model() == ClampToScreen(resolved);
    }

    /** The body of the platform loop in `update`, for one platform rectangle. */
    method ResolveAgainst(p: Rect)
      modifies this
      ensures Model() == ResolveOne(old(Model()), p)
    {
      if Collide(rect, p) {
        if velY > 0 {
          rect := WithBottom(rect, Top(p));
          velY := 0;
          onGround := true;
        } else if velY < 0 {
          rect := WithTop(rect, Bottom(p));
          velY := 0;
        }
      }
    }

    method Move(direction: string)
      modifies this
      ensures Model() == MoveBody(old(Model()), direction)
    {
      if direction == "left" {
        velX := -PlayerSpeed;
      } else if direction == "right" {
        velX := PlayerSpeed;
      } else if direction == "stop" {
        velX := 0;
      }
    }

    method Jump()
      modifies this
      ensures Model() == JumpBody(old(Model()))
    {
      if onGround {
        velY := JumpStrength;
        onGround := false;
      }
    }
  }
}
