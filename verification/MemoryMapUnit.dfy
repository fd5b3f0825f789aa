/** The paged memory as the program has it: regions with storage of their own behind a page table.
    Seen from outside it is one flat 64K memory, which is how every other module sees it. */
module MemoryMapUnit {
  import opened Common
  import opened MemoryMap

  /** The read and write switches have this many cases. */
  const MAX_REGIONS := 9

  /** A region's bytes, addressed from its start. */
  class SpanMap {
    const start: word
    const end: word
    const data: array<byte>

    ghost predicate Valid()
    {
      start <= end && data.Length == end - start + 1
    }

    constructor (region: Region)
      requires Mapped(region)
      ensures Valid() && start == region.start && end == region.end && fresh(data)
    {
      start, end := region.start, region.end;
      data := new byte[region.end - region.start + 1](_ => 0);
    }

    method Read(address: word) returns (value: byte)
      requires Valid() && start <= address <= end
      ensures value == data[address - start]
    {
      value := data[address - start];
    }

    method Write(address: word, value: byte)
      requires Valid() && start <= address <= end
      modifies data
      ensures data[..] == old(data[..])[address - start := value]
    {
      data[address - start] := value;
    }
  }

  class PagedMemory {
    const regions: seq<Region>
    const spans: seq<SpanMap>
    const mapping: array<byte>

    constructor (regions: seq<Region>, spans: seq<SpanMap>)
      requires AllMapped(regions) && Partition(regions) && |spans| == |regions| <= MAX_REGIONS
      requires forall i :: 0 <= i < |spans| ==> Backs(spans[i], regions[i])
      requires forall i, j :: 0 <= i < j < |spans| ==> spans[i].data != spans[j].data
      ensures Valid() && this.regions == regions && this.spans == spans && fresh(mapping)
    {
      this.regions, this.spans := regions, spans;
      var table := BuildRegionsIndexMapping(regions);
      this.mapping := table;
    }

    ghost predicate Layout()
    {
      && AllMapped(regions) && Partition(regions) && |spans| == |regions| <= MAX_REGIONS
      && (forall i :: 0 <= i < |spans| ==> Backs(spans[i], regions[i]))
      && (forall i, j :: 0 <= i < j < |spans| ==> spans[i].data != spans[j].data)
      && (forall i :: 0 <= i < |spans| ==> spans[i].data != mapping)
    }

    ghost predicate Valid()
      reads mapping
    {
      Layout() && forall i :: 0 <= i < |regions| ==> PagesFilled(mapping[..], regions[i], i)
    }

    ghost function Storage(): set<object> {
      set i | 0 <= i < |spans| :: spans[i].data
    }

    /** What address `a` holds. */
    ghost function At(a: word): byte
      requires Valid()
      reads mapping, Storage()
    {
      LookupIsSearch(regions, mapping[..], a);
      var i := mapping[a / PAGE_SIZE];
      assert Backs(spans[i], regions[i]);
      spans[i].data[a - regions[i].start]
    }

    method Read(address: word) returns (value: byte)
      requires Valid()
      ensures value == At(address)
    {
      LookupIsSearch(regions, mapping[..], address);
      var regionIndex := mapping[address / PAGE_SIZE];
      assert Backs(spans[regionIndex], regions[regionIndex]);
      value := spans[regionIndex].Read(address);
    }

    /** Writing changes that address and no other. */
    method Write(address: word, value: byte)
      requires Valid()
      modifies Storage()
      ensures Valid()
      ensures forall a: word :: At(a) == if a == address then value else old(At(a))
    {
      LookupIsSearch(regions, mapping[..], address);
      var regionIndex := mapping[address / PAGE_SIZE];
      assert Backs(spans[regionIndex], regions[regionIndex]);
      spans[regionIndex].Write(address, value);
      forall a: word ensures At(a) == if a == address then value else old(At(a)) {
        LookupIsSearch(regions, mapping[..], a);
        var i := mapping[a / PAGE_SIZE];
        assert Backs(spans[i], regions[i]);
        assert i != regionIndex ==> spans[i].data != spans[regionIndex].data;
      }
    }
  }

  ghost predicate Backs(span: SpanMap, region: Region) {
    span.Valid() && span.start == region.start && span.end == region.end
  }
}
