/** What the OAM scan leaves in the sprite buffer. */
module PpuScan {
  import opened Common
  import opened Pixels
  import opened PpuPipe
  import opened Ppu
  import opened PpuTiming

  /** The objects among OAM entries `from` to `k - 1` that touch line `ly`, in OAM order. */
  ghost function Visible(mem: Memory, ly: nat, height: nat, from: nat, k: nat): seq<Object>
    requires k <= OAM_OBJECTS
  {
    if k <= from then []
    else
      var o := GetObject(k - 1, mem);
      Visible(mem, ly, height, from, k - 1) + if InScanline(o, height, ly) then [o] else []
  }

  ghost function FirstTen(objects: seq<Object>): ObjectBuffer {
    objects[..Min(|objects|, MAX_OBJECTS_PER_LINE)]
  }

  lemma {:induction false} VisibleMembers(mem: Memory, ly: nat, height: nat, from: nat, k: nat)
    requires k <= OAM_OBJECTS
    ensures var v := Visible(mem, ly, height, from, k);
      && (forall o :: o in v ==> InScanline(o, height, ly) && from <= o.index < k && o == GetObject(o.index, mem))
      && (forall i :: from <= i < k && InScanline(GetObject(i, mem), height, ly) ==> GetObject(i, mem) in v)
  {
    if k > from {
      VisibleMembers(mem, ly, height, from, k - 1);
      assert GetObject(k - 1, mem).index == k - 1;
      hide GetObject, InScanline;
      var before, v := Visible(mem, ly, height, from, k - 1), Visible(mem, ly, height, from, k);
      forall i | from <= i < k && InScanline(GetObject(i, mem), height, ly) ensures GetObject(i, mem) in v {
        assert i < k - 1 ==> GetObject(i, mem) in before;
      }
    }
  }

  lemma {:induction false} VisibleSorted(mem: Memory, ly: nat, height: nat, from: nat, k: nat)
    requires k <= OAM_OBJECTS
    ensures var v := Visible(mem, ly, height, from, k);
      && (forall i :: 0 <= i < |v| ==> v[i].index < k)
      && (forall i, j :: 0 <= i < j < |v| ==> v[i].index < v[j].index)
  {
    var v := Visible(mem, ly, height, from, k);
    if k > from {
      VisibleSorted(mem, ly, height, from, k - 1);
      assert GetObject(k - 1, mem).index == k - 1;
    }
    assert k <= from ==> v == [];
    assert k > from ==>
      var before := Visible(mem, ly, height, from, k - 1); v == before || v == before + [GetObject(k - 1, mem)];
    hide *;
  }

  /** `Visible` lists exactly the objects on the line, from the given entry on, by increasing OAM
      index. */
  lemma VisibleIsFilter(mem: Memory, ly: nat, height: nat, from: nat)
    ensures var v := Visible(mem, ly, height, from, OAM_OBJECTS);
      && (forall o :: o in v <==>
           from <= o.index < OAM_OBJECTS && o == GetObject(o.index, mem) && InScanline(o, height, ly))
      && (forall i, j :: 0 <= i < j < |v| ==> v[i].index < v[j].index)
  {
    hide GetObject, InScanline, Visible;
    VisibleMembers(mem, ly, height, from, OAM_OBJECTS);
    var v := Visible(mem, ly, height, from, OAM_OBJECTS);
    forall o: Object | from <= o.index < OAM_OBJECTS && o == GetObject(o.index, mem) && InScanline(o, height, ly)
      ensures o in v
    {
      assert GetObject(o.index, mem) in v;
    }
    VisibleSorted(mem, ly, height, from, OAM_OBJECTS);
  }

  /** The entries a scan in state `s` has looked at: at dot `c`, (c + 1) / 2 of them. */
  function Looked(s: Ppu): nat {
    (s.cycle + 1) / 2
  }

  /** What the line's objects become, counting those already buffered at `start`. */
  ghost function Collected(start: Ppu, mem: Memory, k: nat): ObjectBuffer
    requires k <= OAM_OBJECTS
  {
    FirstTen(start.pipe.buffer + Visible(mem, start.ly, ObjectHeight(start.regs.tallObjects), Looked(start), k))
  }

  /** The progress of the scan that `start` was in the middle of. */
  ghost predicate Scanned(s: Ppu, mem: Memory, start: Ppu) {
    && start.cycle <= s.cycle <= SCAN_DOTS
    && s.ly == start.ly && s.regs.tallObjects == start.regs.tallObjects
    && s.pipe.buffer == Collected(start, mem, Looked(s))
  }

  lemma ScanDotCollects(s: Ppu, mem: Memory, start: Ppu)
    requires Scanned(s, mem, start) && s.cycle < SCAN_DOTS
    ensures Scanned(ScanDot(s, mem), mem, start)
  {
    hide GetObject, InScanline, Collected;
    var t := ScanDot(s, mem);
    if s.cycle % 2 == 0 {
      assert t.cycle / 2 == Looked(s) && Looked(t) == t.cycle / 2 + 1;
      OneMoreEntry(start, mem, t.cycle / 2);
    } else {
      assert Looked(t) == Looked(s);
    }
  }

  lemma OneMoreEntry(start: Ppu, mem: Memory, k: nat)
    requires Looked(start) <= k < OAM_OBJECTS
    ensures var o, before := GetObject(k, mem), Collected(start, mem, k);
      Collected(start, mem, k + 1)
        == if InScanline(o, ObjectHeight(start.regs.tallObjects), start.ly) && |before| < MAX_OBJECTS_PER_LINE
           then before + [o] else before
  {
    hide GetObject, InScanline;
    var height := ObjectHeight(start.regs.tallObjects);
    var v := Visible(mem, start.ly, height, Looked(start), k);
    assert start.pipe.buffer + (v + [GetObject(k, mem)]) == start.pipe.buffer + v + [GetObject(k, mem)];
    assert start.pipe.buffer + (v + []) == start.pipe.buffer + v;
  }

  lemma {:induction false} ScanDotsCollect(s: Ppu, mem: Memory, start: Ppu, k: nat)
    requires Scanned(s, mem, start) && s.cycle + k <= SCAN_DOTS
    ensures Scanned(ScanDots(s, mem, k), mem, start)
    decreases k
  {
    if k > 0 {
      ScanDotCollects(s, mem, start);
      hide Scanned, ScanDot;
      ScanDotKeeps(s, mem);
      ScanDotsCollect(ScanDot(s, mem), mem, start, k - 1);
    }
  }

  /** The rest of a scan with nothing written. */
  lemma QuietScan(s: Ppu, mem: Memory)
    requires Inv(s) && s.enabled && s.mode == OamScan
    ensures s.cycle < SCAN_DOTS
    ensures var t := Dots(s, mem, SCAN_DOTS - s.cycle);
      && t.mode == Drawing && t.cycle == SCAN_DOTS && t.ly == s.ly && t.regs == s.regs && t.enabled
      && t.pipe == StartDrawing(s.pipe.(buffer := t.pipe.buffer), s.regs.scx)
      && t.pipe.buffer == Collected(s, mem, OAM_OBJECTS)
  {
    ScanStarts(s, mem);
    var n: nat := SCAN_DOTS - s.cycle;
    ScanBatchIsDots(s, mem, n);
    hide *;
    ScanDotsCollect(s, mem, s, n);
    ScanDotsKeep(s, mem, n);
    DrawingStarts(ScanDots(s, mem, n), mem, s);
  }

  lemma NothingBuffered(s: Ppu, mem: Memory)
    requires s.cycle == 0 && s.pipe.buffer == []
    ensures Collected(s, mem, OAM_OBJECTS)
         == FirstTen(Visible(mem, s.ly, ObjectHeight(s.regs.tallObjects), 0, OAM_OBJECTS))
  {
    hide Visible;
    var v := Visible(mem, s.ly, ObjectHeight(s.regs.tallObjects), 0, OAM_OBJECTS);
    assert [] + v == v;
  }

  lemma ScanStarts(s: Ppu, mem: Memory)
    requires s.cycle <= SCAN_DOTS
    ensures Scanned(s, mem, s)
  {
    assert s.pipe.buffer + [] == s.pipe.buffer;
  }

  lemma DrawingStarts(s: Ppu, mem: Memory, start: Ppu)
    requires s.cycle == SCAN_DOTS && Scanned(s, mem, start)
    ensures var t := FinishScan(s);
      && t.mode == Drawing && t.cycle == SCAN_DOTS && t.ly == s.ly && t.regs == s.regs && t.enabled == s.enabled
      && t.pipe == StartDrawing(s.pipe, s.regs.scx) && t.pipe.buffer == s.pipe.buffer
      && s.pipe.buffer == Collected(start, mem, OAM_OBJECTS)
  {
    hide Collected, StatCondition;
  }

  // ---------------------------------------------------------------- under register writes

  /** What must not change while a line is scanned: the LCD, the object size and object memory. */
  ghost predicate ScanStays(i: Input, mem: Memory, tall: bool) {
    && LcdLeftOn(i)
    && (forall w :: w in i.writes && w.WriteRegs? ==> w.regs.tallObjects == tall)
    && i.mem[OAM_START..OAM_START + 4 * OAM_OBJECTS] == mem[OAM_START..OAM_START + 4 * OAM_OBJECTS]
  }

  lemma SameByte(mem: Memory, other: Memory, at: nat)
    requires other[OAM_START..OAM_START + 4 * OAM_OBJECTS] == mem[OAM_START..OAM_START + 4 * OAM_OBJECTS]
    requires OAM_START <= at < OAM_START + 4 * OAM_OBJECTS
    ensures other[at] == mem[at]
  {
    assert mem[at] == mem[OAM_START..OAM_START + 4 * OAM_OBJECTS][at - OAM_START];
    assert other[at] == other[OAM_START..OAM_START + 4 * OAM_OBJECTS][at - OAM_START];
  }

  lemma SameObject(index: nat, mem: Memory, other: Memory)
    requires index < OAM_OBJECTS
    requires other[OAM_START..OAM_START + 4 * OAM_OBJECTS] == mem[OAM_START..OAM_START + 4 * OAM_OBJECTS]
    ensures GetObject(index, other) == GetObject(index, mem)
  {
    var base := OAM_START + index * 4;
    SameByte(mem, other, base);
    SameByte(mem, other, base + 1);
    SameByte(mem, other, base + 2);
    SameByte(mem, other, base + 3);
    hide Bit;
  }

  lemma SameScanDot(s: Ppu, mem: Memory, other: Memory)
    requires s.cycle < SCAN_DOTS
    requires other[OAM_START..OAM_START + 4 * OAM_OBJECTS] == mem[OAM_START..OAM_START + 4 * OAM_OBJECTS]
    ensures ScanDot(s, other) == ScanDot(s, mem)
  {
    if s.cycle % 2 == 0 {
      SameObject((s.cycle + 1) / 2, mem, other);
    }
    hide GetObject, InScanline;
  }

  lemma {:induction false} WritesKeepSize(s: Ppu, ws: seq<PpuWrite>, tall: bool)
    requires Inv(s) && s.regs.tallObjects == tall
    requires forall w :: w in ws && w.WriteRegs? ==> w.regs.tallObjects == tall
    ensures ApplyAll(s, ws).regs.tallObjects == tall
    decreases |ws|
  {
    if ws != [] {
      hide Inv;
      ApplyInv(s, ws[0]);
      WriteKeepsSize(s, ws[0], tall);
      hide Apply;
      WritesKeepSize(Apply(s, ws[0]), ws[1..], tall);
    }
  }

  lemma WriteKeepsSize(s: Ppu, w: PpuWrite, tall: bool)
    requires s.regs.tallObjects == tall && (w.WriteRegs? ==> w.regs.tallObjects == tall)
    ensures Apply(s, w).regs.tallObjects == tall
  {
    hide StatCondition;
  }

  /** In the middle of the scan that `start` was in. */
  ghost predicate Scanning(s: Ppu, mem: Memory, start: Ppu) {
    && s.enabled && s.mode == OamScan
    && s.pipe == start.pipe.(buffer := s.pipe.buffer)
    && Scanned(s, mem, start)
  }

  /** At the start of drawing the line, with its objects buffered. */
  ghost predicate ScanDone(s: Ppu, mem: Memory, start: Ppu) {
    var objects := Collected(start, mem, OAM_OBJECTS);
    && s.enabled && s.mode == Drawing && s.cycle == SCAN_DOTS && s.ly == start.ly
    && s.pipe == StartDrawing(start.pipe.(buffer := objects), s.regs.scx)
    && s.pipe.buffer == objects
  }

  lemma WritesWhileScanning(s: Ppu, mem: Memory, start: Ppu, i: Input)
    requires Inv(s) && Scanning(s, mem, start) && ScanStays(i, mem, start.regs.tallObjects)
    ensures var a := ApplyAll(s, i.writes);
      Inv(a) && Scanning(a, mem, start) && a.cycle == s.cycle
  {
    hide ApplyAll, Inv, Collected;
    WritesKeepSize(s, i.writes, start.regs.tallObjects);
  }

  lemma DotWhileScanning(s: Ppu, mem: Memory, start: Ppu, now: Memory)
    requires Inv(s) && Scanning(s, mem, start)
    requires now[OAM_START..OAM_START + 4 * OAM_OBJECTS] == mem[OAM_START..OAM_START + 4 * OAM_OBJECTS]
    ensures s.cycle < SCAN_DOTS
    ensures var t := Dot(s, now);
      if s.cycle + 1 < SCAN_DOTS then Scanning(t, mem, start) && t.cycle == s.cycle + 1 else ScanDone(t, mem, start)
  {
    SameScanDot(s, mem, now);
    ScanDotCollects(s, mem, start);
    ScanDotKeeps(s, mem);
    hide ScanDot, Collected, StatCondition;
    var t := ScanDot(s, mem);
    assert ScanDots(s, now, 1) == ScanDots(t, now, 0) == t;
    if s.cycle + 1 == SCAN_DOTS {
      DrawingStarts(t, mem, start);
    }
  }

  lemma {:induction false} ScanRun(s: Ppu, mem: Memory, start: Ppu, env: nat -> Input, t: nat, n: nat)
    requires Inv(s) && Scanning(s, mem, start) && s.cycle < SCAN_DOTS && n == SCAN_DOTS - s.cycle
    requires forall k :: ScanStays(env(k), mem, start.regs.tallObjects)
    ensures ScanDone(RunFor(s, env, t, n), mem, start)
    decreases n
  {
    hide Inv, Scanning, ScanDone, ApplyAll, Dot;
    var i := env(t);
    assert ScanStays(i, mem, start.regs.tallObjects);
    WritesWhileScanning(s, mem, start, i);
    DotWhileScanning(ApplyAll(s, i.writes), mem, start, i.mem);
    var next := RunDot(s, i);
    if n > 1 {
      ScanRun(next, mem, start, env, t + 1, n - 1);
    }
    assert n == 1 ==> RunFor(next, env, t + 1, 0) == next;
  }

  /** The rest of a scan from any dot, whatever the program writes meanwhile as long as it leaves the LCD
      on and the object size and object memory as they are: drawing starts at dot 80 with exactly the
      first ten of what was buffered and the visible objects not yet looked at, in OAM order. */
  lemma ScanCollects(s: Ppu, mem: Memory, env: nat -> Input)
    requires Inv(s) && s.enabled && s.mode == OamScan
    requires forall k :: ScanStays(env(k), mem, s.regs.tallObjects)
    ensures s.cycle < SCAN_DOTS
    ensures ScanDone(RunFor(s, env, 0, SCAN_DOTS - s.cycle), mem, s)
  {
    ScanStarts(s, mem);
    hide RunFor, ScanStays, Collected;
    ScanRun(s, mem, s, env, 0, SCAN_DOTS - s.cycle);
  }

  lemma ScanDoneMeans(t: Ppu, mem: Memory, start: Ppu)
    requires ScanDone(t, mem, start)
    ensures var objects := Collected(start, mem, OAM_OBJECTS);
      && t.enabled && t.mode == Drawing && t.cycle == SCAN_DOTS && t.ly == start.ly
      && t.pipe == StartDrawing(start.pipe.(buffer := objects), t.regs.scx) && t.pipe.buffer == objects
  {
    hide Collected, StartDrawing;
  }

  lemma CleanStart(s: Ppu)
    requires Inv(s) && s.mode == OamScan && s.cycle == 0
    ensures s.pipe.buffer == [] && SCAN_DOTS - s.cycle == SCAN_DOTS
  {
  }

  lemma AfterDotTwo(s: Ppu, mem: Memory)
    requires s.cycle == 2
    ensures Collected(s, mem, OAM_OBJECTS) == FirstTen(
      s.pipe.buffer + Visible(mem, s.ly, ObjectHeight(s.regs.tallObjects), 1, OAM_OBJECTS))
  {
    hide Visible;
  }

  lemma FirstObjectsAre(s: Ppu, mem: Memory)
    ensures FirstObjects(s, mem)
         == FirstTen(s.pipe.buffer + Visible(mem, 0, ObjectHeight(s.regs.tallObjects), 1, OAM_OBJECTS))
  {
  }

  /** A whole scan: exactly the first ten visible objects. */
  lemma ScanCollectsFirstTen(s: Ppu, mem: Memory, env: nat -> Input)
    requires Inv(s) && s.enabled && s.mode == OamScan && s.cycle == 0
    requires forall k :: ScanStays(env(k), mem, s.regs.tallObjects)
    ensures var t := RunFor(s, env, 0, SCAN_DOTS);
      var objects := FirstTen(Visible(mem, s.ly, ObjectHeight(s.regs.tallObjects), 0, OAM_OBJECTS));
      && t.mode == Drawing && t.cycle == SCAN_DOTS && t.ly == s.ly && t.enabled
      && t.pipe == StartDrawing(s.pipe.(buffer := objects), t.regs.scx) && t.pipe.buffer == objects
  {
    CleanStart(s);
    hide *;
    NothingBuffered(s, mem);
    ScanCollects(s, mem, env);
    ScanDoneMeans(RunFor(s, env, 0, SCAN_DOTS), mem, s);
  }

  /** The objects of the first line after the LCD has been switched off in state `s` and on again. */
  ghost function FirstObjects(s: Ppu, mem: Memory): ObjectBuffer {
    FirstTen(s.pipe.buffer + Visible(mem, 0, ObjectHeight(s.regs.tallObjects), 1, OAM_OBJECTS))
  }

  /** The first line after the LCD has been switched off and on: objects buffered when it was switched
      off are still there, and come first, while the first OAM entry is never looked at. */
  lemma FirstLineObjects(s: Ppu, mem: Memory, env: nat -> Input)
    requires Inv(s) && s.enabled
    requires forall k :: ScanStays(env(k), mem, s.regs.tallObjects)
    ensures var on := Apply(Apply(s, WriteEnable(false)), WriteEnable(true));
      && Inv(on)
      && var t := RunFor(on, env, 0, SCAN_DOTS - 2);
         && t.mode == Drawing && t.cycle == SCAN_DOTS && t.ly == 0
         && t.pipe.buffer == FirstObjects(s, mem)
  {
    hide *;
    SwitchedOffAndOn(s);
    var on := Apply(Apply(s, WriteEnable(false)), WriteEnable(true));
    ScanCollects(on, mem, env);
    ScanDoneMeans(RunFor(on, env, 0, SCAN_DOTS - 2), mem, on);
    AfterDotTwo(on, mem);
    FirstObjectsAre(s, mem);
  }

  lemma SwitchedOffAndOn(s: Ppu)
    requires Inv(s) && s.enabled
    ensures var on := Apply(Apply(s, WriteEnable(false)), WriteEnable(true));
      && Inv(on) && on.enabled && on.mode == OamScan && on.ly == 0 && on.cycle == 2
      && on.pipe.buffer == s.pipe.buffer && on.regs == s.regs
  {
    var off := Apply(s, WriteEnable(false));
    ApplyInv(s, WriteEnable(false));
    ApplyInv(off, WriteEnable(true));
    StatOnly(off.(enabled := true));
    hide UpdateStat;
  }
}
