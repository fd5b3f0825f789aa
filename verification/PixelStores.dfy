/** The sprite buffer and the sprite FIFO on their real containers: what taking an object out
    and merging a fetched row do, against the pipeline's view of them as sequences. */
module PixelStores {
  import opened Common
  import opened Pixels
  import opened PpuPipe
  import opened Containers

  /** The first buffered object that starts at or before column `x` leaves the buffer. */
  method PopObjectAtX(objects: FixedCapacityVector<Object>, x: nat) returns (popped: Option<Object>)
    requires objects.Valid()
    modifies objects, objects.elements
    ensures objects.Valid()
    ensures var before := old(objects.Contents());
      var k := FirstAt(before, x);
      if k < |before| then popped == Some(before[k]) && objects.Contents() == before[..k] + before[k + 1..]
      else popped == None && objects.Contents() == before
  {
    ghost var before := objects.Contents();
    var k := 0;
    while k < objects.numElements && !(objects.elements[k].x - 8 <= x)
      invariant 0 <= k <= objects.numElements
      invariant forall j :: 0 <= j < k ==> before[j].x - 8 > x
    {
      k := k + 1;
    }
    FirstAtUnique(before, x, k);
    if k == objects.numElements { return None; }
    popped := Some(objects.elements[k]);
    objects.Erase(k);
  }

  lemma {:induction false} FirstAtUnique(buffer: seq<Object>, x: nat, k: nat)
    requires k <= |buffer|
    requires forall j :: 0 <= j < k ==> buffer[j].x - 8 > x
    requires k < |buffer| ==> buffer[k].x - 8 <= x
    ensures FirstAt(buffer, x) == k
  {
    if k > 0 {
      FirstAtUnique(buffer[1..], x, k - 1);
    }
  }

  /** Transparent pixels until there are eight. */
  method PadToEight(fifo: FixedSizeQueue<Pixel>)
    requires fifo.Valid() && fifo.size == FIFO_SIZE
    modifies fifo, fifo.storage
    ensures fifo.Valid() && |old(fifo.Contents())| <= 8 && fifo.Contents() == Padded(old(fifo.Contents()))
  {
    RingLength(fifo);
    hide Ring;
    ghost var before: Fifo := fifo.Contents();
    var count := fifo.Count();
    while count < 8
      invariant fifo.Valid() && |before| <= count == |fifo.Contents()| <= 8
      invariant fifo.Contents() == Padded(before)[..count]
    {
      var _ := fifo.TryPush(TRANSPARENT);
      count := count + 1;
    }
  }

  lemma RingLength(fifo: FixedSizeQueue<Pixel>)
    requires fifo.Valid()
    ensures |fifo.Contents()| == fifo.numElements
  {
  }

  /** Pop each of the eight pixels and keep the winner against the new row. */
  method ResolveRow(fifo: FixedSizeQueue<Pixel>, row: TileRow) returns (merged: seq<Pixel>)
    requires fifo.Valid() && |fifo.Contents()| == 8
    modifies fifo
    ensures fifo.Valid() && fifo.Contents() == []
    ensures |merged| == 8
    ensures forall k :: 0 <= k < 8 ==> merged[k] == Resolve(old(fifo.Contents())[k], row[k])
  {
    hide Ring, Resolve;
    ghost var padded := fifo.Contents();
    merged := [];
    var i := 0;
    while i < 8
      invariant 0 <= i <= 8 && fifo.Valid()
      invariant fifo.Contents() == padded[i..]
      invariant |merged| == i && forall k :: 0 <= k < i ==> merged[k] == Resolve(padded[k], row[k])
    {
      var newPixel := row[i];
      var previous := fifo.TryPop();
      merged := merged + [match previous case Some(p) => Resolve(p, newPixel) case None => newPixel];
      i := i + 1;
    }
  }

  /** A completed sprite fetch: pad the FIFO to eight pixels, resolve each against the new row,
      and put the winners back. The FIFO ends up as the pointwise merge of its padded old
      contents with the row. */
  method MergeSpriteRow(fifo: FixedSizeQueue<Pixel>, row: TileRow)
    requires fifo.Valid() && fifo.size == FIFO_SIZE
    modifies fifo, fifo.storage
    ensures fifo.Valid() && |old(fifo.Contents())| <= 8 && fifo.Contents() == MergeRow(old(fifo.Contents()), row)
  {
    RingLength(fifo);
    hide Ring, Resolve, Padded;
    ghost var before: Fifo := fifo.Contents();
    PadToEight(fifo);
    var merged := ResolveRow(fifo, row);
    assert merged == MergeRow(before, row);
    var _ := fifo.TryPushRange(merged);
  }
}
