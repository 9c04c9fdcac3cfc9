/**
 * The memory-type lookup used for every buffer allocation.
 */
module Helpers {
  import opened Vk

  /** Memory type `t` shares at least one property bit with the request: overlap, not containment. */
  predicate Overlaps(t: MemoryType, flags: bv32) {
    t.propertyFlags & flags != 0
  }

  /** The meaningful memory types of a device: the first `memoryTypeCount` entries. */
  function ReportedTypes(props: MemoryProperties): seq<MemoryType>
    requires props.memoryTypeCount <= |props.memoryTypes|
  {
    props.memoryTypes[..props.memoryTypeCount]
  }

  /** The first memory type overlapping `flags`, or `|types|` when there is none. */
  function FirstOverlapping(types: seq<MemoryType>, flags: bv32): (k: nat)
    ensures k <= |types|
    ensures k < |types| ==> Overlaps(types[k], flags)
    ensures forall j :: 0 <= j < k ==> !Overlaps(types[j], flags)
  {
    if |types| == 0 then 0
    else if Overlaps(types[0], flags) then 0
    else 1 + FirstOverlapping(types[1..], flags)
  }

  /** The first overlapping type is the only index with no overlapping type before it. */
  lemma {:induction false} FirstOverlappingIsFirst(types: seq<MemoryType>, flags: bv32, k: nat)
    requires k <= |types|
    requires k < |types| ==> Overlaps(types[k], flags)
    requires forall j :: 0 <= j < k ==> !Overlaps(types[j], flags)
    ensures FirstOverlapping(types, flags) == k
  {
    if k > 0 {
      assert !Overlaps(types[0], flags);
      FirstOverlappingIsFirst(types[1..], flags, k - 1);
    }
  }

  /**
   * The (found, index) pair the lookup returns, stated as a search: the
   * first reported type overlapping the request, or (false, 0).
   */
  function MemoryTypeLookup(props: MemoryProperties, flags: bv32): (r: (bool, nat))
    requires props.memoryTypeCount <= |props.memoryTypes|
    ensures r.0 ==> r.1 < props.memoryTypeCount
    ensures !r.0 ==> r.1 == 0
  {
    var k := FirstOverlapping(ReportedTypes(props), flags);
    if k < props.memoryTypeCount then (true, k) else (false, 0)
  }

  /**
   * FindMemoryTypeIndex: scan the reported memory types in index order and
   * stop at the first whose property flags overlap `flags`.
   */
  method FindMemoryTypeIndex(props: MemoryProperties, flags: bv32) returns (found: bool, index: nat)
    requires props.memoryTypeCount <= |props.memoryTypes|
    ensures found <==> exists i :: 0 <= i < props.memoryTypeCount && Overlaps(props.memoryTypes[i], flags)
    ensures found ==> index < props.memoryTypeCount && Overlaps(props.memoryTypes[index], flags)
    ensures found ==> forall j :: 0 <= j < index ==> !Overlaps(props.memoryTypes[j], flags)
    ensures !found ==> index == 0
    ensures (found, index) == MemoryTypeLookup(props, flags)
  {
    index := 0;
    found := false;
    var i := 0;
    while i < props.memoryTypeCount
      invariant 0 <= i <= props.memoryTypeCount
      invariant !found && index == 0
      invariant forall j :: 0 <= j < i ==> !Overlaps(props.memoryTypes[j], flags)
    {
      if props.memoryTypes[i].propertyFlags & flags != 0 {
        index := i;
        found := true;
        break;
      }
      i := i + 1;
    }
    if found {
      FirstOverlappingIsFirst(ReportedTypes(props), flags, index);
    } else {
      FirstOverlappingIsFirst(ReportedTypes(props), flags, props.memoryTypeCount);
    }
  }

  /** A request of exactly one bit: overlapping it and containing it are the same thing. */
  lemma SingleBitOverlapIsContainment(t: MemoryType, bit: bv32)
    requires bit != 0 && bit & (bit - 1) == 0
    ensures Overlaps(t, bit) <==> t.propertyFlags & bit == bit
  {
  }

  /** The one request the compositor makes (host-visible) finds a host-visible type when it finds one. */
  lemma HostVisibleLookupIsHostVisible(props: MemoryProperties)
    requires props.memoryTypeCount <= |props.memoryTypes|
    ensures var (found, index) := MemoryTypeLookup(props, MemoryHostVisibleBit);
      found ==> props.memoryTypes[index].propertyFlags & MemoryHostVisibleBit == MemoryHostVisibleBit
  {
    var (found, index) := MemoryTypeLookup(props, MemoryHostVisibleBit);
    if found {
      assert ReportedTypes(props)[index] == props.memoryTypes[index];
      SingleBitOverlapIsContainment(props.memoryTypes[index], MemoryHostVisibleBit);
    }
  }
}
