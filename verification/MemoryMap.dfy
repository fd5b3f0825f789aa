/** The memory map: regions checked at build time to partition the address space, and the
    page table that finds an address's region with one lookup. */
module MemoryMap {
  import opened Common

  const PAGE_SIZE := 0x100
  const PAGES := 256
  const MEMORY_SIZE := 0x1_0000

  datatype Region = Region(start: word, end: word)

  /** What the program demands of every region: it is not empty and its size is whole pages. */
  ghost predicate Mapped(r: Region) {
    r.start <= r.end && (r.end - r.start + 1) % PAGE_SIZE == 0
  }

  ghost predicate AllMapped(rs: seq<Region>) {
    forall r :: r in rs ==> Mapped(r)
  }

  predicate Contains(r: Region, a: nat) {
    r.start <= a <= r.end
  }

  ghost predicate Covered(rs: seq<Region>, a: nat) {
    exists r :: r in rs && Contains(r, a)
  }

  /** Every address lies in a region, and no two regions share an address. */
  ghost predicate Partition(rs: seq<Region>) {
    && (forall a: nat :: a < MEMORY_SIZE ==> Covered(rs, a))
    && (forall i, j :: 0 <= i < j < |rs| ==> Apart(rs[i], rs[j]))
  }

  ghost predicate Apart(r: Region, q: Region) {
    r.end < q.start || q.end < r.start
  }

  // ---------------------------------------------------------------- sorting by start

  function Insert(r: Region, rs: seq<Region>): seq<Region> {
    if rs == [] || r.start <= rs[0].start then [r] + rs else [rs[0]] + Insert(r, rs[1..])
  }

  function SortByStart(rs: seq<Region>): seq<Region> {
    if rs == [] then [] else Insert(rs[0], SortByStart(rs[1..]))
  }

  ghost predicate Sorted(rs: seq<Region>) {
    forall i, j :: 0 <= i < j < |rs| ==> rs[i].start <= rs[j].start
  }

  lemma {:induction false} InsertAdds(r: Region, rs: seq<Region>)
    ensures multiset(Insert(r, rs)) == multiset(rs) + multiset{r}
  {
    if rs != [] && r.start > rs[0].start {
      InsertAdds(r, rs[1..]);
      assert rs == [rs[0]] + rs[1..];
    }
  }

  lemma {:induction false} InsertSorts(r: Region, rs: seq<Region>)
    requires Sorted(rs)
    ensures Sorted(Insert(r, rs))
  {
    if rs != [] && r.start > rs[0].start {
      InsertSorts(r, rs[1..]);
      InsertAdds(r, rs[1..]);
      var tail := Insert(r, rs[1..]);
      forall k | 0 <= k < |tail| ensures tail[k].start >= rs[0].start {
        assert tail[k] in multiset(tail);
      }
      assert Insert(r, rs) == [rs[0]] + tail;
      hide Insert;
    }
  }

  lemma {:induction false} SortSorts(rs: seq<Region>)
    ensures Sorted(SortByStart(rs)) && multiset(SortByStart(rs)) == multiset(rs)
  {
    if rs != [] {
      SortSorts(rs[1..]);
      InsertSorts(rs[0], SortByStart(rs[1..]));
      InsertAdds(rs[0], SortByStart(rs[1..]));
      assert rs == [rs[0]] + rs[1..];
    }
  }

  // ---------------------------------------------------------------- the coverage check

  /** Each region starts where the previous one ended, from `current` to the end of memory. */
  predicate Contiguous(rs: seq<Region>, current: nat) {
    if rs == [] then current == MEMORY_SIZE
    else rs[0].start == current && Contiguous(rs[1..], rs[0].end + 1)
  }

  /** The build-time check, over a copy of the regions sorted by start. */
  method RegionsCoverAll(regions: seq<Region>) returns (ok: bool)
    ensures ok <==> Contiguous(SortByStart(regions), 0)
  {
    var sorted := SortByStart(regions);
    var current: nat := 0;
    var i := 0;
    while i < |sorted|
      invariant 0 <= i <= |sorted|
      invariant Contiguous(sorted, 0) <==> Contiguous(sorted[i..], current)
    {
      assert sorted[i..][1..] == sorted[i + 1..];
      if sorted[i].start != current {
        return false;
      }
      current := sorted[i].end + 1;
      i := i + 1;
    }
    ok := current == MEMORY_SIZE;
  }

  /** Partition of the addresses from `current` on. */
  ghost predicate Tiles(rs: seq<Region>, current: nat) {
    && (forall r :: r in rs ==> current <= r.start)
    && (forall a: nat :: current <= a < MEMORY_SIZE ==> Covered(rs, a))
    && (forall i, j :: 0 <= i < j < |rs| ==> Apart(rs[i], rs[j]))
  }

  /** Putting a region in front of the ones that follow it. */
  lemma TilesFront(r: Region, rest: seq<Region>)
    requires Mapped(r) && Tiles(rest, r.end + 1)
    ensures Tiles([r] + rest, r.start)
  {
    var rs := [r] + rest;
    forall a: nat | r.start <= a < MEMORY_SIZE ensures Covered(rs, a) {
      if a <= r.end {
        assert r in rs && Contains(r, a);
      } else {
        assert Covered(rest, a);
        var q :| q in rest && Contains(q, a);
        assert q in rs;
      }
    }
    forall i, j | 0 <= i < j < |rs| ensures Apart(rs[i], rs[j]) {
      assert rs[j] == rest[j - 1] && rest[j - 1] in rest;
      assert i > 0 ==> rs[i] == rest[i - 1];
    }
  }

  /** Taking the first of sorted regions away. */
  lemma TilesRest(rs: seq<Region>, current: nat)
    requires AllMapped(rs) && Sorted(rs) && Tiles(rs, current) && current < MEMORY_SIZE
    ensures rs != [] && rs[0].start == current && Tiles(rs[1..], rs[0].end + 1)
  {
    assert Covered(rs, current);
    var q :| q in rs && Contains(q, current);
    assert q.start == current;
    var r, rest := rs[0], rs[1..];
    assert r in rs && r.start == current && Mapped(r);
    assert forall i :: 0 <= i < |rest| ==> rest[i] == rs[i + 1];
    forall s | s in rest ensures r.end + 1 <= s.start {
      var i :| 0 <= i < |rest| && rest[i] == s;
      assert s == rs[i + 1] && s in rs && Apart(rs[0], rs[i + 1]);
    }
    forall a: nat | r.end + 1 <= a < MEMORY_SIZE ensures Covered(rest, a) {
      assert Covered(rs, a);
      var s :| s in rs && Contains(s, a);
      assert s in rest;
    }
  }

  lemma {:induction false} ContiguousTiles(rs: seq<Region>, current: nat)
    requires AllMapped(rs) && Contiguous(rs, current)
    ensures Tiles(rs, current)
    decreases |rs|
  {
    if rs != [] {
      assert rs == [rs[0]] + rs[1..] && rs[0] in rs;
      assert AllMapped(rs[1..]);
      hide Tiles, Apart;
      ContiguousTiles(rs[1..], rs[0].end + 1);
      TilesFront(rs[0], rs[1..]);
    } else {
      assert Tiles(rs, current);
    }
  }

  lemma {:induction false} ContiguousAligned(rs: seq<Region>, current: nat)
    requires AllMapped(rs) && Contiguous(rs, current) && current % PAGE_SIZE == 0
    ensures forall r :: r in rs ==> r.start % PAGE_SIZE == 0
    decreases |rs|
  {
    if rs != [] {
      assert rs[0] in rs && Mapped(rs[0]);
      assert (rs[0].end + 1) % PAGE_SIZE == 0;
      ContiguousAligned(rs[1..], rs[0].end + 1);
    }
  }

  lemma {:induction false} TilesContiguous(rs: seq<Region>, current: nat)
    requires AllMapped(rs) && Sorted(rs) && Tiles(rs, current) && current <= MEMORY_SIZE
    ensures Contiguous(rs, current)
    decreases |rs|
  {
    if rs == [] {
      assert current < MEMORY_SIZE ==> Covered(rs, current);
    } else {
      assert rs[0] in rs;
      TilesRest(rs, current);
      assert AllMapped(rs[1..]);
      hide Tiles;
      TilesContiguous(rs[1..], rs[0].end + 1);
    }
  }

  /** Pairwise apart, in terms that do not depend on the order of the list. */
  ghost predicate ApartAsBag(rs: seq<Region>) {
    && (forall r :: r in rs ==> multiset(rs)[r] == 1)
    && (forall r, q :: r in rs && q in rs && r != q ==> Apart(r, q))
  }

  lemma ApartIsBag(rs: seq<Region>)
    requires AllMapped(rs)
    ensures (forall i, j :: 0 <= i < j < |rs| ==> Apart(rs[i], rs[j])) <==> ApartAsBag(rs)
  {
    if forall i, j :: 0 <= i < j < |rs| ==> Apart(rs[i], rs[j]) {
      forall r | r in rs ensures multiset(rs)[r] == 1 {
        var i :| 0 <= i < |rs| && rs[i] == r;
        OnceOnly(rs, i);
      }
      forall r, q | r in rs && q in rs && r != q ensures Apart(r, q) {
        var i :| 0 <= i < |rs| && rs[i] == r;
        var j :| 0 <= j < |rs| && rs[j] == q;
        assert i < j || j < i;
      }
    }
    if ApartAsBag(rs) {
      forall i, j | 0 <= i < j < |rs| ensures Apart(rs[i], rs[j]) {
        if rs[i] == rs[j] {
          TwiceAtLeast(rs, i, j);
        }
      }
    }
  }

  lemma OnceOnly(rs: seq<Region>, i: nat)
    requires i < |rs| && AllMapped(rs)
    requires forall k, j :: 0 <= k < j < |rs| ==> Apart(rs[k], rs[j])
    ensures multiset(rs)[rs[i]] == 1
  {
    var r := rs[i];
    assert rs == rs[..i] + [r] + rs[i + 1..];
    assert r in rs && Mapped(r);
    assert r !in rs[..i] && r !in rs[i + 1..];
  }

  lemma TwiceAtLeast(rs: seq<Region>, i: nat, j: nat)
    requires i < j < |rs| && rs[i] == rs[j]
    ensures multiset(rs)[rs[i]] >= 2
  {
    var r := rs[i];
    assert rs == rs[..j] + [r] + rs[j + 1..];
    assert r in rs[..j] by { assert rs[..j][i] == r; }
  }

  /** Neither coverage nor separation depends on the order of the regions. */
  lemma TilesAnyOrder(rs: seq<Region>, qs: seq<Region>)
    requires AllMapped(rs) && multiset(rs) == multiset(qs)
    ensures AllMapped(qs) && (Tiles(rs, 0) ==> Tiles(qs, 0))
  {
    assert forall r :: r in multiset(rs) <==> r in multiset(qs);
    assert forall r :: r in rs <==> r in multiset(rs);
    assert forall r :: r in qs <==> r in multiset(qs);
    assert forall r :: r in rs <==> r in qs;
    ApartIsBag(rs);
    ApartIsBag(qs);
    if Tiles(rs, 0) {
      hide Apart, Contains, Mapped;
      assert ApartAsBag(qs);
      forall a: nat | a < MEMORY_SIZE ensures Covered(qs, a) {
        assert Covered(rs, a);
      }
    }
  }

  /** The check passes exactly for the region lists that partition the address space, in any
      order; and then every region starts on a page boundary. */
  lemma CheckIsPartition(regions: seq<Region>)
    requires AllMapped(regions)
    ensures Contiguous(SortByStart(regions), 0) <==> Partition(regions)
    ensures Partition(regions) ==> forall r :: r in regions ==> r.start % PAGE_SIZE == 0
  {
    var sorted := SortByStart(regions);
    SortSorts(regions);
    TilesAnyOrder(regions, sorted);
    TilesAnyOrder(sorted, regions);
    assert Partition(regions) <==> Tiles(regions, 0);
    hide SortByStart, Tiles, Partition;
    if Contiguous(sorted, 0) {
      ContiguousTiles(sorted, 0);
    }
    if Partition(regions) {
      TilesContiguous(sorted, 0);
      ContiguousAligned(sorted, 0);
      forall r | r in regions ensures r.start % PAGE_SIZE == 0 {
        assert r in multiset(regions);
        assert r in sorted;
      }
    }
  }

  // ---------------------------------------------------------------- the page table

  ghost predicate PagesFilled(mapping: seq<byte>, r: Region, index: nat) {
    |mapping| == PAGES && forall p :: r.start / PAGE_SIZE <= p <= r.end / PAGE_SIZE ==> mapping[p] == index
  }

  /** One table entry per page, holding the position of the region it belongs to. */
  method BuildRegionsIndexMapping(regions: seq<Region>) returns (mapping: array<byte>)
    requires AllMapped(regions) && Partition(regions)
    ensures fresh(mapping) && mapping.Length == PAGES
    ensures |regions| <= 0x100
    ensures forall i :: 0 <= i < |regions| ==> PagesFilled(mapping[..], regions[i], i)
  {
    CheckIsPartition(regions);
    FewRegions(regions);
    mapping := new byte[PAGES](_ => 0);
    var i := 0;
    while i < |regions|
      invariant 0 <= i <= |regions|
      invariant forall k :: 0 <= k < i ==> PagesFilled(mapping[..], regions[k], k)
    {
      var r := regions[i];
      PageBounds(regions, i);
      var numPages := (r.end - r.start + 1) / PAGE_SIZE;
      var initialPagePos := r.start / PAGE_SIZE;
      ghost var before := mapping[..];
      var n := 0;
      while n < numPages
        invariant 0 <= n <= numPages
        invariant forall p :: initialPagePos <= p < initialPagePos + n ==> mapping[p] == i
        invariant forall p :: 0 <= p < PAGES && !(initialPagePos <= p < initialPagePos + n) ==> mapping[p] == before[p]
      {
        mapping[initialPagePos + n] := i;
        n := n + 1;
      }
      forall k | 0 <= k < i ensures PagesFilled(mapping[..], regions[k], k) {
        PagesApart(regions, k, i);
      }
      i := i + 1;
    }
  }

  lemma PageBounds(regions: seq<Region>, i: nat)
    requires AllMapped(regions) && i < |regions| && regions[i].start % PAGE_SIZE == 0
    ensures var r := regions[i];
      && r.start / PAGE_SIZE + (r.end - r.start + 1) / PAGE_SIZE == r.end / PAGE_SIZE + 1
      && r.end / PAGE_SIZE < PAGES
      && 1 <= (r.end - r.start + 1) / PAGE_SIZE
  {
    assert regions[i] in regions;
  }

  lemma PagesApart(regions: seq<Region>, k: nat, i: nat)
    requires AllMapped(regions) && Partition(regions) && k < i < |regions|
    requires regions[k].start % PAGE_SIZE == 0 && regions[i].start % PAGE_SIZE == 0
    ensures regions[k].end / PAGE_SIZE < regions[i].start / PAGE_SIZE
         || regions[i].end / PAGE_SIZE < regions[k].start / PAGE_SIZE
  {
    assert Apart(regions[k], regions[i]);
  }

  /** Disjoint whole-page regions fit into 64K at most 256 times, so a position fits a byte. */
  lemma FewRegions(regions: seq<Region>)
    requires AllMapped(regions) && Partition(regions)
    ensures |regions| <= 0x100
  {
    CheckIsPartition(regions);
    SortSorts(regions);
    var sorted := SortByStart(regions);
    assert |sorted| == |multiset(sorted)| == |multiset(regions)| == |regions|;
    assert AllMapped(sorted) by {
      forall r | r in sorted ensures Mapped(r) {
        assert r in multiset(sorted);
      }
    }
    ContiguousCount(sorted, 0);
  }

  lemma {:induction false} ContiguousCount(rs: seq<Region>, current: nat)
    requires AllMapped(rs) && Contiguous(rs, current)
    ensures current + PAGE_SIZE * |rs| <= MEMORY_SIZE
    decreases |rs|
  {
    if rs != [] {
      assert rs[0] in rs;
      ContiguousCount(rs[1..], rs[0].end + 1);
    }
  }

  /** The page table agrees with searching the regions: for every address the entry of its page
      is the position of the one region that contains the address. */
  lemma LookupIsSearch(regions: seq<Region>, mapping: seq<byte>, a: word)
    requires AllMapped(regions) && Partition(regions)
    requires forall i :: 0 <= i < |regions| ==> PagesFilled(mapping, regions[i], i)
    ensures |mapping| == PAGES
    ensures var i := mapping[a / PAGE_SIZE];
      && i < |regions| && Contains(regions[i], a)
      && forall j :: 0 <= j < |regions| && Contains(regions[j], a) ==> j == i
  {
    assert Covered(regions, a);
    var r :| r in regions && Contains(r, a);
    var i :| 0 <= i < |regions| && regions[i] == r;
    assert PagesFilled(mapping, regions[i], i);
    assert r.start / PAGE_SIZE <= a / PAGE_SIZE <= r.end / PAGE_SIZE;
    forall j | 0 <= j < |regions| && j != i ensures !Contains(regions[j], a) {
      assert if j < i then Apart(regions[j], regions[i]) else Apart(regions[i], regions[j]);
    }
  }

  /** The regions of the emulated machine: two ROM banks, video RAM, cartridge RAM, two work RAM
      banks, echo RAM, object memory, and the I/O page. */
  const MACHINE_REGIONS := [
    Region(0x0000, 0x3FFF), Region(0x4000, 0x7FFF), Region(0x8000, 0x9FFF),
    Region(0xA000, 0xBFFF), Region(0xC000, 0xCFFF), Region(0xD000, 0xDFFF),
    Region(0xE000, 0xFDFF), Region(0xFE00, 0xFEFF), Region(0xFF00, 0xFFFF)]

  lemma MachineMapIsPartition()
    ensures AllMapped(MACHINE_REGIONS) && Partition(MACHINE_REGIONS)
  {
    var rs := MACHINE_REGIONS;
    forall a: nat | a < MEMORY_SIZE ensures Covered(rs, a) {
      var i := if a < 0x4000 then 0 else if a < 0x8000 then 1 else if a < 0xA000 then 2
        else if a < 0xC000 then 3 else if a < 0xD000 then 4 else if a < 0xE000 then 5
        else if a < 0xFE00 then 6 else if a < 0xFF00 then 7 else 8;
      assert rs[i] in rs && Contains(rs[i], a);
    }
  }
}
