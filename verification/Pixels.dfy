/** Pixels, sprite attributes and the rule that decides which of several overlapping
    sprite pixels reaches the screen. */
module Pixels {
  import opened Common

  datatype Pixel = Pixel(
    color: nat,
    palette: Option<nat>,
    bgPriority: bool,
    x: Option<byte>,
    oamIndex: Option<byte>)

  datatype Object = Object(
    index: byte,
    x: byte,
    y: byte,
    tile: byte,
    priority: bool,
    xFlip: bool,
    yFlip: bool,
    altPalette: bool)

  const TRANSPARENT := Pixel(0, None, false, None, None)

  /** Which of two sprite pixels competing for the same column is kept. */
  function Resolve(lhs: Pixel, rhs: Pixel): Pixel {
    if lhs.color == 0 then rhs
    else if rhs.color == 0 then lhs
    else if lhs.x.GetOr(0) < rhs.x.GetOr(0) then lhs
    else if rhs.x.GetOr(0) < lhs.x.GetOr(0) then rhs
    else if lhs.oamIndex.GetOr(0) < rhs.oamIndex.GetOr(0) then lhs
    else rhs
  }

  /** Background pixel against sprite pixel. */
  function Mix(background: Pixel, sprite: Pixel, bgEnabled: bool, objectsEnabled: bool): Pixel {
    if sprite.color == 0 then background
    else if !objectsEnabled then background
    else if !bgEnabled then sprite
    else if background.color == 0 then sprite
    else if sprite.bgPriority && background.color != 0 then background
    else sprite
  }

  /** The grey level (0..3) of a pixel under the three palette registers. */
  function Shade(p: Pixel, bgp: byte, obp0: byte, obp1: byte): nat {
    var palette := match p.palette case None => bgp case Some(i) => if i == 1 then obp1 else obp0;
    palette / [1, 4, 16, 64][p.color % 4] % 4
  }

  /** Resolving a column's pixels one after the other, oldest first. */
  function Fold(ps: seq<Pixel>): Pixel {
    if ps == [] then TRANSPARENT else Resolve(Fold(ps[..|ps| - 1]), ps[|ps| - 1])
  }

  ghost predicate Opaque(p: Pixel) {
    p.color != 0
  }

  /** Strict drawing order: smaller x first, then smaller OAM index. */
  ghost predicate Before(p: Pixel, q: Pixel) {
    || p.x.GetOr(0) < q.x.GetOr(0)
    || (p.x.GetOr(0) == q.x.GetOr(0) && p.oamIndex.GetOr(0) < q.oamIndex.GetOr(0))
  }

  /** Two opaque pixels with the same x and OAM index are the same pixel: what the
      pixels contributed to one column by distinct objects satisfy. */
  ghost predicate Distinct(ps: set<Pixel>) {
    forall p, q :: p in ps && q in ps && Opaque(p) && Opaque(q) && !Before(p, q) && !Before(q, p) ==> p == q
  }

  /** `p` is the pixel the hardware shows for a column fed by `ps`. */
  ghost predicate IsFront(p: Pixel, ps: set<Pixel>) {
    if exists q :: q in ps && Opaque(q)
    then p in ps && Opaque(p) && forall q :: q in ps && Opaque(q) ==> q == p || Before(p, q)
    else !Opaque(p)
  }

  ghost function Elements(ps: seq<Pixel>): set<Pixel> {
    set p | p in ps
  }

  /** Folding the pair-wise rule yields the opaque pixel with the least (x, OAM index). */
  lemma {:induction false} FoldIsFront(ps: seq<Pixel>)
    requires Distinct(Elements(ps))
    ensures IsFront(Fold(ps), Elements(ps))
  {
    if ps != [] {
      var init, last := ps[..|ps| - 1], ps[|ps| - 1];
      assert ps == init + [last];
      assert Elements(ps) == Elements(init) + {last};
      FoldIsFront(init);
      var f := Fold(init);
      if Opaque(f) && Opaque(last) {
        assert f in Elements(ps);
        assert f == last || Before(f, last) || Before(last, f);
      }
    }
  }

  /** The outcome does not depend on the order in which the pixels were fetched. */
  lemma FoldOrderIndependent(ps: seq<Pixel>, qs: seq<Pixel>)
    requires Elements(ps) == Elements(qs) && Distinct(Elements(ps))
    ensures Fold(ps) == Fold(qs) || (!Opaque(Fold(ps)) && !Opaque(Fold(qs)))
  {
    FoldIsFront(ps);
    FoldIsFront(qs);
  }
}
