/** What one line of the screen should show, computed directly from video memory: a
    painter's algorithm with no FIFOs, no fetchers and no clock. */
module LineSpec {
  import opened Common
  import opened Pixels
  import opened PpuPipe

  /** Registers and memory held still while the line is drawn, the window's own line
      counter, and the objects the OAM scan selected. */
  datatype Line = Line(ly: byte, regs: Regs, mem: Memory, windowLine: byte, objects: ObjectBuffer)

  /** The pixel at (mapX, mapY) of a 256 x 256 tile map. */
  function MapPixel(l: Line, mapHigh: bool, mapX: nat, mapY: byte): Pixel
    requires mapX < 0x100
  {
    var tile := l.mem[(if mapHigh then 0x9C00 else 0x9800) + mapY / 8 * 32 + mapX / 8];
    var address := TileRowAddress(l.regs.bgDataUnsigned, tile, mapY % 8);
    Pixel(if l.regs.bgEnabled then DecodeTile(7 - mapX % 8, l.mem[address], l.mem[Word(address + 1)]) else 0,
          None, false, None, None)
  }

  /** The first column the window covers, or the width of the screen. */
  function WindowFrom(l: Line): (x: nat)
    ensures x <= LCD_WIDTH
  {
    if l.regs.windowEnabled && l.ly >= l.regs.wy && l.regs.wx - 7 < LCD_WIDTH
    then (if l.regs.wx < 7 then 0 else l.regs.wx - 7)
    else LCD_WIDTH
  }

  function BackgroundAt(l: Line, x: nat): Pixel
    requires x < LCD_WIDTH
  {
    if x >= WindowFrom(l) then MapPixel(l, l.regs.windowMapHigh, x - WindowFrom(l), l.windowLine)
    else MapPixel(l, l.regs.bgMapHigh, (l.regs.scx + x) % 0x100, Byte(l.ly + l.regs.scy))
  }

  /** The first column of an object; objects left of the screen edge start at column 0. */
  function Start(o: Object): nat {
    if o.x < 8 then 0 else o.x - 8
  }

  predicate Covers(o: Object, x: nat) {
    Start(o) <= x < Start(o) + 8
  }

  function ObjectRow(l: Line, o: Object): TileRow {
    var address := SpriteTileAddress(o, l.ly, l.regs.tallObjects);
    SpriteRow(o, l.mem[address], l.mem[Word(address + 1)])
  }

  /** The pixels the given objects contribute to column `x`, in the order given. */
  function Contributions(l: Line, objects: seq<Object>, x: nat): seq<Pixel> {
    if objects == [] then []
    else
      var o := objects[|objects| - 1];
      Contributions(l, objects[..|objects| - 1], x) + if Covers(o, x) then [ObjectRow(l, o)[x - Start(o)]] else []
  }

  function SpriteAt(l: Line, x: nat): Pixel {
    if l.regs.objectsEnabled then Fold(Contributions(l, l.objects, x)) else TRANSPARENT
  }

  /** The shade of column `x` of the line. */
  function Painted(l: Line, x: nat): nat
    requires x < LCD_WIDTH
  {
    Shade(Mix(BackgroundAt(l, x), SpriteAt(l, x), l.regs.bgEnabled, l.regs.objectsEnabled),
          l.regs.bgp, l.regs.obp0, l.regs.obp1)
  }

  function PaintedLine(l: Line): LineBuffer {
    seq(LCD_WIDTH, x requires 0 <= x < LCD_WIDTH => Painted(l, x))
  }

  ghost predicate DistinctObjects(objects: seq<Object>) {
    forall i, j :: 0 <= i < j < |objects| ==> objects[i].index != objects[j].index
  }

  // ---------------------------------------------------------------- contributions

  lemma {:induction false} ContributionsElements(l: Line, objects: seq<Object>, x: nat)
    ensures forall p :: p in Contributions(l, objects, x) <==>
      exists o :: o in objects && Covers(o, x) && p == ObjectRow(l, o)[x - Start(o)]
  {
    hide ObjectRow, Start;
    if objects != [] {
      var init, last := objects[..|objects| - 1], objects[|objects| - 1];
      ContributionsElements(l, init, x);
      assert forall o :: o in objects <==> o in init || o == last;
      assert Contributions(l, objects, x) ==
        Contributions(l, init, x) + if Covers(last, x) then [ObjectRow(l, last)[x - Start(last)]] else [];
    }
  }

  lemma {:induction false} NoContributions(l: Line, objects: seq<Object>, x: nat)
    requires forall o :: o in objects ==> !Covers(o, x)
    ensures Contributions(l, objects, x) == []
  {
    if objects != [] {
      var init := objects[..|objects| - 1];
      assert forall o :: o in init ==> o in objects;
      NoContributions(l, init, x);
    }
  }

  lemma RowKeepsObject(l: Line, o: Object, k: nat)
    requires k < 8
    ensures var p := ObjectRow(l, o)[k]; p.x == Some(o.x) && p.oamIndex == Some(o.index)
  {
  }

  lemma DistinctByIndex(objects: seq<Object>, a: Object, b: Object)
    requires DistinctObjects(objects) && a in objects && b in objects && a.index == b.index
    ensures a == b
  {
    var i :| 0 <= i < |objects| && objects[i] == a;
    var j :| 0 <= j < |objects| && objects[j] == b;
  }

  lemma ContributionsDistinct(l: Line, objects: seq<Object>, x: nat)
    requires DistinctObjects(objects)
    ensures Distinct(Elements(Contributions(l, objects, x)))
  {
    hide Contributions, ObjectRow, Start;
    ContributionsElements(l, objects, x);
    var ps := Elements(Contributions(l, objects, x));
    forall p, q | p in ps && q in ps && Opaque(p) && Opaque(q) && !Before(p, q) && !Before(q, p)
      ensures p == q
    {
      var a :| a in objects && Covers(a, x) && p == ObjectRow(l, a)[x - Start(a)];
      var b :| b in objects && Covers(b, x) && q == ObjectRow(l, b)[x - Start(b)];
      RowKeepsObject(l, a, x - Start(a));
      RowKeepsObject(l, b, x - Start(b));
      DistinctByIndex(objects, a, b);
    }
  }

  /** Any order of fetching the objects that cover a column paints the same there. */
  lemma SameColumn(l: Line, fetched: seq<Object>, objects: seq<Object>, x: nat)
    requires DistinctObjects(objects)
    requires forall o | Covers(o, x) :: o in fetched <==> o in objects
    ensures var f, g := Fold(Contributions(l, fetched, x)), Fold(Contributions(l, objects, x));
      f == g || (f.color == 0 && g.color == 0)
  {
    ContributionsElements(l, fetched, x);
    ContributionsElements(l, objects, x);
    ContributionsDistinct(l, objects, x);
    hide Contributions, ObjectRow, Start, Fold, Before;
    assert Elements(Contributions(l, fetched, x)) == Elements(Contributions(l, objects, x));
    FoldOrderIndependent(Contributions(l, fetched, x), Contributions(l, objects, x));
  }

  /** The sprite pixel of a column is the opaque one with the least (x, OAM index). */
  lemma SpriteAtIsFront(l: Line, x: nat)
    requires l.regs.objectsEnabled && DistinctObjects(l.objects)
    ensures IsFront(SpriteAt(l, x), Elements(Contributions(l, l.objects, x)))
  {
    ContributionsDistinct(l, l.objects, x);
    FoldIsFront(Contributions(l, l.objects, x));
  }
}
