/** Axis-aligned integer rectangles (a sprite's `rect`) and the collision
    test every moving sprite uses against the level's static geometry. */
module Geometry {
  import opened Seqs

  /** A rectangle in screen coordinates: top-left corner (x, y), width w, height h. */
  datatype Rect = Rect(x: int, y: int, w: int, h: int) {
    /** Every sprite's bounding box has a positive width and height. */
    predicate Valid() { w > 0 && h > 0 }

    function Right(): int { x + w }

    function Bottom(): int { y + h }

    /** The same box moved horizontally by dx. */
    function MoveX(dx: int): (r: Rect)
      ensures r.x == x + dx && r.y == y && r.w == w && r.h == h
    {
      this.(x := x + dx)
    }

    /** The same box moved vertically by dy. */
    function MoveY(dy: int): (r: Rect)
      ensures r.x == x && r.y == y + dy && r.w == w && r.h == h
    {
      this.(y := y + dy)
    }
  }

  /** Whether pixel (px, py) lies inside box r; the right and bottom edges are outside. */
  predicate Inside(r: Rect, px: int, py: int) {
    r.x <= px < r.Right() && r.y <= py < r.Bottom()
  }

  /** Strict intersection: boxes that only share an edge or a corner do not overlap.
      Two boxes of positive size overlap exactly when they share a pixel, and
      then they share the one at the larger of their left edges and the larger
      of their top edges. */
  predicate Overlaps(a: Rect, b: Rect): (o: bool)
    ensures a.Valid() && b.Valid() ==>
      (o <==> var px, py := Max(a.x, b.x), Max(a.y, b.y); Inside(a, px, py) && Inside(b, px, py))
  {
    a.x < b.Right() && b.x < a.Right() && a.y < b.Bottom() && b.y < a.Bottom()
  }

  function Max(m: int, n: int): int {
    if m < n then n else m
  }

  /** Boxes that share any pixel overlap. */
  lemma SharedPixel(a: Rect, b: Rect, px: int, py: int)
    requires Inside(a, px, py) && Inside(b, px, py)
    ensures Overlaps(a, b)
  {
  }

  /** Position-wise answer to "does r overlap rs[i]?". */
  function HitMask(r: Rect, rs: seq<Rect>): (m: seq<bool>)
    ensures |m| == |rs|
    ensures forall i :: 0 <= i < |rs| ==> m[i] == Overlaps(r, rs[i])
    decreases |rs|
  {
    if rs == [] then [] else [Overlaps(r, rs[0])] + HitMask(r, rs[1..])
  }

  /** The boxes of rs that r overlaps, in the order of rs (a collision query). */
  function Touching(r: Rect, rs: seq<Rect>): (hits: seq<Rect>)
    ensures |hits| <= |rs|
    ensures forall q {:trigger q in hits} :: q in hits ==> q in rs && Overlaps(r, q)
    ensures forall q {:trigger q in hits} :: q in rs && Overlaps(r, q) ==> q in hits
    decreases |rs|
  {
    if rs == [] then []
    else (if Overlaps(r, rs[0]) then [rs[0]] else []) + Touching(r, rs[1..])
  }

  /** The boxes of rs that r does not overlap, in the order of rs. */
  function Apart(r: Rect, rs: seq<Rect>): (rest: seq<Rect>)
    ensures |rest| <= |rs|
    ensures forall q {:trigger q in rest} :: q in rest ==> q in rs && !Overlaps(r, q)
    ensures forall q {:trigger q in rest} :: q in rs && !Overlaps(r, q) ==> q in rest
    decreases |rs|
  {
    if rs == [] then []
    else (if Overlaps(r, rs[0]) then [] else [rs[0]]) + Apart(r, rs[1..])
  }

  /** A collision query splits the boxes: what r touches and what it does not add up to all of them. */
  lemma {:induction false} TouchingSplit(r: Rect, rs: seq<Rect>)
    ensures |Touching(r, rs)| + |Apart(r, rs)| == |rs|
    decreases |rs|
  {
    if rs != [] {
      TouchingSplit(r, rs[1..]);
    }
  }

  /** A box that overlaps none of the boxes touches nothing. */
  lemma {:induction false} TouchingNone(r: Rect, rs: seq<Rect>)
    requires forall q :: q in rs ==> !Overlaps(r, q)
    ensures Touching(r, rs) == []
    decreases |rs|
  {
    if rs != [] {
      assert rs[0] in rs;
      TouchingNone(r, rs[1..]);
    }
  }

  /** The boxes of a group's members, in group order, read through `box`. */
  function BoxesOf<T>(s: seq<T>, box: T -> Rect): (rs: seq<Rect>)
    ensures |rs| == |s|
    ensures forall i :: 0 <= i < |s| ==> rs[i] == box(s[i])
    decreases |s|
  {
    if s == [] then [] else [box(s[0])] + BoxesOf(s[1..], box)
  }

  /** The members of group s whose box r overlaps, in group order (a collision
      query over sprites). */
  function Hit<T(==)>(r: Rect, s: seq<T>, box: T -> Rect): (hits: seq<T>)
    ensures |hits| <= |s|
    ensures forall x {:trigger x in hits} :: x in hits ==> x in s && Overlaps(r, box(x))
    ensures forall x {:trigger x in hits} :: x in s && Overlaps(r, box(x)) ==> x in hits
    decreases |s|
  {
    if s == [] then []
    else (if Overlaps(r, box(s[0])) then [s[0]] else []) + Hit(r, s[1..], box)
  }

  /** The members of group s whose box r does not overlap, in group order. */
  function Missed<T(==)>(r: Rect, s: seq<T>, box: T -> Rect): (rest: seq<T>)
    ensures |rest| <= |s|
    ensures forall x {:trigger x in rest} :: x in rest ==> x in s && !Overlaps(r, box(x))
    ensures forall x {:trigger x in rest} :: x in s && !Overlaps(r, box(x)) ==> x in rest
    decreases |s|
  {
    if s == [] then []
    else (if Overlaps(r, box(s[0])) then [] else [s[0]]) + Missed(r, s[1..], box)
  }

  /** A query is a filter of the group by the mask of its members' boxes. */
  lemma {:induction false} HitFilters<T>(r: Rect, s: seq<T>, box: T -> Rect)
    ensures Hit(r, s, box) == Keep(s, HitMask(r, BoxesOf(s, box)))
    ensures Missed(r, s, box) == Drop(s, HitMask(r, BoxesOf(s, box)))
    decreases |s|
  {
    if s != [] {
      HitFilters(r, s[1..], box);
      assert BoxesOf(s, box)[1..] == BoxesOf(s[1..], box);
      assert HitMask(r, BoxesOf(s, box))[1..] == HitMask(r, BoxesOf(s[1..], box));
    }
  }

  /** A query splits a group: what it hits and what it misses add up to the
      group, and neither part repeats a member when the group does not. */
  lemma HitSplit<T>(r: Rect, s: seq<T>, box: T -> Rect)
    ensures |Hit(r, s, box)| + |Missed(r, s, box)| == |s|
    ensures Distinct(s) ==> Distinct(Hit(r, s, box)) && Distinct(Missed(r, s, box))
  {
    HitFilters(r, s, box);
    KeepDropSize(s, HitMask(r, BoxesOf(s, box)));
    if Distinct(s) {
      KeepDistinct(s, HitMask(r, BoxesOf(s, box)));
    }
  }

  /** Every box of rs moved horizontally by dx. */
  function Shifted(rs: seq<Rect>, dx: int): (out: seq<Rect>)
    ensures |out| == |rs|
    ensures forall i :: 0 <= i < |rs| ==> out[i] == rs[i].MoveX(dx)
  {
    seq(|rs|, i requires 0 <= i < |rs| => rs[i].MoveX(dx))
  }

  /** Overlap does not depend on the order of its arguments. */
  lemma OverlapsSymmetric(a: Rect, b: Rect)
    ensures Overlaps(a, b) == Overlaps(b, a)
  {
  }

  /** A rigid horizontal translation of both boxes keeps their overlap relation. */
  lemma OverlapsUnderShift(a: Rect, b: Rect, dx: int)
    ensures Overlaps(a.MoveX(dx), b.MoveX(dx)) == Overlaps(a, b)
  {
  }

  /** Two scrolls in a row are one scroll by the sum; a scroll by 0 changes nothing. */
  lemma ShiftedComposes(rs: seq<Rect>, a: int, b: int)
    ensures Shifted(Shifted(rs, a), b) == Shifted(rs, a + b)
    ensures Shifted(rs, 0) == rs
  {
  }
}
