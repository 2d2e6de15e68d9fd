/** Axis-aligned rectangles with pygame's integer coordinates (y grows downward). */
module Geometry {
  datatype Rect = Rect(x: int, y: int, w: int, h: int)

  function Left(r: Rect): int { r.x }
  function Right(r: Rect): int { r.x + r.w }
  function Top(r: Rect): int { r.y }
  function Bottom(r: Rect): int { r.y + r.h }

  /** Assigning `rect.bottom` moves the rectangle vertically, keeping its size. */
  function WithBottom(r: Rect, bottom: int): (s: Rect)
    ensures Bottom(s) == bottom && s.x == r.x && s.w == r.w && s.h == r.h
  {
    r.(y := bottom - r.h)
  }

  /** Assigning `rect.top` moves the rectangle vertically, keeping its size. */
  function WithTop(r: Rect, top: int): (s: Rect)
    ensures Top(s) == top && s.x == r.x && s.w == r.w && s.h == r.h
  {
    r.(y := top)
  }

  /**
   * `Rect.colliderect`: the open interiors intersect on both axes, so
   * rectangles that only share an edge do not collide.
   */
  predicate Collide(a: Rect, b: Rect)
  {
    Left(a) < Right(b) && Left(b) < Right(a) && Top(a) < Bottom(b) && Top(b) < Bottom(a)
  }

  lemma CollideSymmetric(a: Rect, b: Rect)
    ensures Collide(a, b) <==> Collide(b, a)
  {
  }

  /** A rectangle resting on another (bottom edge on its top edge) does not overlap it. */
  lemma TouchingDoesNotCollide(a: Rect, b: Rect)
    requires Bottom(a) == Top(b) || Top(a) == Bottom(b)
    ensures !Collide(a, b)
  {
  }

  /** `r` overlaps some rectangle of `rs` (`spritecollide` returning a non-empty list). */
  predicate HitsAny(r: Rect, rs: seq<Rect>)
  {
    rs != [] && (HitsAny(r, rs[..|rs| - 1]) || Collide(r, rs[|rs| - 1]))
  }

  lemma {:induction false} HitsAnyExists(r: Rect, rs: seq<Rect>)
    ensures HitsAny(r, rs) <==> exists i :: 0 <= i < |rs| && Collide(r, rs[i])
  {
    if rs != [] {
      var pre := rs[..|rs| - 1];
      HitsAnyExists(r, pre);
      if HitsAny(r, pre) {
        var i :| 0 <= i < |pre| && Collide(r, pre[i]);
        assert rs[i] == pre[i];
      }
      if exists i :: 0 <= i < |rs| && Collide(r, rs[i]) {
        var i :| 0 <= i < |rs| && Collide(r, rs[i]);
        if i < |pre| {
          assert pre[i] == rs[i];
        }
      }
    }
  }
}
