/**
 * sources/Structs.cpp: `DeviceData` (physical-device preference, queue
 * families and logical device), `Buffer` (create, allocate, bind, upload,
 * descriptors) and `Shader`.
 */
module Structs {
  import opened Vk
  import Helpers

  /** One entry of the call log of `DeviceData`, `Buffer` and `Shader`: a Vulkan call and the arguments the model tracks. */
  datatype Call =
    | EnumeratePhysicalDevices
    | CreateDevice(queueRequests: seq<QueueRequest>, extensionCount: nat)
    | GetQueue(familyIndex: nat, queueIndex: nat)
    | CreateBuffer(size: nat, usage: bv32)
    | AllocateMemory(allocationSize: nat, memoryTypeIndex: nat)
    | BindBufferMemory(buffer: Handle, memory: Handle, memoryOffset: nat)
    | MapMemory(memory: Handle, offset: nat, size: nat)
    | UnmapMemory(memory: Handle)
    | CreateDescriptorSetLayout(bindings: seq<LayoutBinding>)
    | CreateDescriptorPool(maxSets: nat, poolSizes: seq<PoolSize>)
    | AllocateDescriptorSets(pool: Handle, setLayouts: seq<Handle>)
    | UpdateDescriptorSet(write: DescriptorWrite)
    | LoadShaderCode
    | CreateShaderModule

  // ---------------------------------------------------------------------
  // Physical-device preference
  // ---------------------------------------------------------------------

  /** The preference list of `InitializePhysicalDevice`. */
  const PreferredTypes: seq<PhysicalDeviceType> := [DiscreteGpu, IntegratedGpu]

  /**
   * The index of the device `InitializePhysicalDevice` keeps: the first
   * discrete GPU, else the first integrated GPU, else the front of the list.
   */
  function PreferredDeviceIndex(devices: seq<PhysicalDevice>): (k: nat)
    requires |devices| > 0
    ensures k < |devices|
    ensures (exists i :: 0 <= i < |devices| && devices[i].deviceType == DiscreteGpu) ==>
      devices[k].deviceType == DiscreteGpu &&
      forall j :: 0 <= j < k ==> devices[j].deviceType != DiscreteGpu
    ensures ((forall i :: 0 <= i < |devices| ==> devices[i].deviceType != DiscreteGpu) &&
             (exists i :: 0 <= i < |devices| && devices[i].deviceType == IntegratedGpu)) ==>
      devices[k].deviceType == IntegratedGpu &&
      forall j :: 0 <= j < k ==> devices[j].deviceType != IntegratedGpu
    ensures (forall i :: 0 <= i < |devices| ==>
      devices[i].deviceType != DiscreteGpu && devices[i].deviceType != IntegratedGpu) ==> k == 0
  {
    var d := FirstOfType(devices, DiscreteGpu);
    if d < |devices| then d
    else
      var i := FirstOfType(devices, IntegratedGpu);
      if i < |devices| then i else 0
  }

  // ---------------------------------------------------------------------
  // Queue families and the de-duplicated queue-create list
  // ---------------------------------------------------------------------

  /** The family can present to the window surface (getSurfaceSupportKHR's answer). */
  predicate CanPresent(f: QueueFamily) {
    f.presentSupport
  }

  /** The lowest family with the graphics bit, or the family count when there is none. */
  function GraphicsFamilyIndex(families: seq<QueueFamily>): (g: nat)
    ensures g <= |families|
    ensures g < |families| ==> HasGraphics(families[g])
    ensures forall j :: 0 <= j < g ==> !HasGraphics(families[j])
  {
    if |families| == 0 then 0
    else if HasGraphics(families[0]) then 0
    else 1 + GraphicsFamilyIndex(families[1..])
  }

  /** The lowest family that can present to the surface, or the family count when there is none. */
  function PresentFamilyIndex(families: seq<QueueFamily>): (p: nat)
    ensures p <= |families|
    ensures p < |families| ==> CanPresent(families[p])
    ensures forall j :: 0 <= j < p ==> !CanPresent(families[j])
  {
    if |families| == 0 then 0
    else if CanPresent(families[0]) then 0
    else 1 + PresentFamilyIndex(families[1..])
  }

  /** Any index that is a first present-capable family (or the count, when none is) is the search's answer. */
  lemma {:induction false} PresentFamilyIndexIsFirst(families: seq<QueueFamily>, p: nat)
    requires p <= |families|
    requires p < |families| ==> CanPresent(families[p])
    requires forall j :: 0 <= j < p ==> !CanPresent(families[j])
    ensures PresentFamilyIndex(families) == p
  {
    if p > 0 {
      assert !CanPresent(families[0]);
      PresentFamilyIndexIsFirst(families[1..], p - 1);
    }
  }

  /** Each request's family is no smaller than the one before it. */
  predicate Ascending(rs: seq<QueueRequest>) {
    forall i :: 0 < i < |rs| ==> rs[i - 1].familyIndex <= rs[i].familyIndex
  }

  /** Each request's family is larger than the one before it: no family appears twice. */
  predicate StrictlyAscending(rs: seq<QueueRequest>) {
    forall i :: 0 < i < |rs| ==> rs[i - 1].familyIndex < rs[i].familyIndex
  }

  function Families(rs: seq<QueueRequest>): set<nat> {
    set r | r in rs :: r.familyIndex
  }

  /** Insert `x` into an ascending list, after every request of a smaller family. */
  function InsertByFamily(x: QueueRequest, rs: seq<QueueRequest>): (r: seq<QueueRequest>)
    ensures |r| == |rs| + 1
    ensures r[0] == if |rs| == 0 || x.familyIndex <= rs[0].familyIndex then x else rs[0]
  {
    if |rs| == 0 then [x]
    else if x.familyIndex <= rs[0].familyIndex then [x] + rs
    else [rs[0]] + InsertByFamily(x, rs[1..])
  }

  /** `std::sort` by family index. */
  function SortByFamily(rs: seq<QueueRequest>): (r: seq<QueueRequest>)
    ensures |r| == |rs|
  {
    if |rs| == 0 then [] else InsertByFamily(rs[0], SortByFamily(rs[1..]))
  }

  /** `std::unique` by family index: of each run of requests for one family, keep the first. */
  function UniqueByFamily(rs: seq<QueueRequest>): (r: seq<QueueRequest>)
    ensures |r| <= |rs|
    ensures |rs| > 0 ==> |r| > 0 && r[0] == rs[0]
    decreases |rs|
  {
    if |rs| <= 1 then rs
    else if rs[0].familyIndex == rs[1].familyIndex then UniqueByFamily([rs[0]] + rs[2..])
    else [rs[0]] + UniqueByFamily(rs[1..])
  }

  /** Dropping the first request of an ascending list leaves it ascending. */
  lemma AscendingTail(rs: seq<QueueRequest>)
    requires |rs| > 0 && Ascending(rs)
    ensures Ascending(rs[1..])
  {
    forall i | 0 < i < |rs[1..]| ensures rs[1..][i - 1].familyIndex <= rs[1..][i].familyIndex {
      assert rs[1..][i - 1] == rs[i] && rs[1..][i] == rs[i + 1];
    }
  }

  /** Insertion keeps a list ascending and adds exactly the one request. */
  lemma {:induction false} InsertByFamilyCorrect(x: QueueRequest, rs: seq<QueueRequest>)
    requires Ascending(rs)
    ensures Ascending(InsertByFamily(x, rs))
    ensures multiset(InsertByFamily(x, rs)) == multiset(rs) + multiset{x}
  {
    if |rs| > 0 && x.familyIndex > rs[0].familyIndex {
      AscendingTail(rs);
      var tail := InsertByFamily(x, rs[1..]);
      InsertByFamilyCorrect(x, rs[1..]);
      assert rs == [rs[0]] + rs[1..];
      var r := [rs[0]] + tail;
      assert r == InsertByFamily(x, rs);
      forall i | 0 < i < |r| ensures r[i-1].familyIndex <= r[i].familyIndex {
        if i > 1 {
          assert r[i-1] == tail[i-2] && r[i] == tail[i-1];
        }
      }
    }
  }

  /** `SortByFamily` is a sort: its result is ascending and a permutation of its input. */
  lemma {:induction false} SortByFamilyCorrect(rs: seq<QueueRequest>)
    ensures Ascending(SortByFamily(rs))
    ensures multiset(SortByFamily(rs)) == multiset(rs)
  {
    if |rs| > 0 {
      SortByFamilyCorrect(rs[1..]);
      InsertByFamilyCorrect(rs[0], SortByFamily(rs[1..]));
      assert rs == [rs[0]] + rs[1..];
    }
  }

  /**
   * `UniqueByFamily` keeps exactly the families of its input, takes every
   * request it keeps from its input, and on an ascending input leaves each
   * family once.
   */
  lemma {:induction false} UniqueByFamilyCorrect(rs: seq<QueueRequest>)
    ensures forall x :: x in UniqueByFamily(rs) ==> x in rs
    ensures Families(UniqueByFamily(rs)) == Families(rs)
    ensures Ascending(rs) ==> StrictlyAscending(UniqueByFamily(rs))
    decreases |rs|
  {
    if |rs| <= 1 {
    } else if rs[0].familyIndex == rs[1].familyIndex {
      var rest := [rs[0]] + rs[2..];
      UniqueByFamilyCorrect(rest);
      assert forall x :: x in rest ==> x in rs;
      assert Families(rest) == Families(rs) by {
        assert forall x :: x in rs ==> x in rest || x == rs[1];
      }
      if Ascending(rs) {
        assert Ascending(rest) by {
          forall i | 0 < i < |rest| ensures rest[i - 1].familyIndex <= rest[i].familyIndex {
            assert rest[i] == rs[i + 1];
            if i > 1 {
              assert rest[i - 1] == rs[i];
            } else {
              assert rs[0].familyIndex <= rs[1].familyIndex <= rs[2].familyIndex;
            }
          }
        }
      }
    } else {
      var tail := UniqueByFamily(rs[1..]);
      UniqueByFamilyCorrect(rs[1..]);
      assert rs == [rs[0]] + rs[1..];
      assert Families(rs) == {rs[0].familyIndex} + Families(rs[1..]);
      assert Families([rs[0]] + tail) == {rs[0].familyIndex} + Families(tail);
      if Ascending(rs) {
        AscendingTail(rs);
        var r := [rs[0]] + tail;
        forall i | 0 < i < |r| ensures r[i - 1].familyIndex < r[i].familyIndex {
          if i > 1 {
            assert r[i - 1] == tail[i - 2] && r[i] == tail[i - 1];
          } else {
            assert r[1] == rs[1];
          }
        }
      }
    }
  }

  /**
   * Sorting and then de-duplicating any list of requests leaves one request
   * per family, in ascending family order, and loses no family.
   */
  lemma SortUniqueOnePerFamily(rs: seq<QueueRequest>)
    ensures StrictlyAscending(UniqueByFamily(SortByFamily(rs)))
    ensures Families(UniqueByFamily(SortByFamily(rs))) == Families(rs)
  {
    var sorted := SortByFamily(rs);
    SortByFamilyCorrect(rs);
    UniqueByFamilyCorrect(sorted);
    assert Families(sorted) == Families(rs) by {
      assert forall x :: x in sorted <==> x in multiset(sorted);
      assert forall x :: x in rs <==> x in multiset(rs);
    }
  }

  /**
   * The queue-create list `InitializeLogicalDevice` passes to createDevice:
   * one single-queue request for the graphics family and one for the present
   * family, sorted and de-duplicated. Two requests for one family collapse
   * into one, and otherwise the lower family comes first.
   */
  function QueueCreateInfos(graphics: nat, present: nat): (r: seq<QueueRequest>)
    ensures r == if graphics < present then [QueueRequest(graphics, 1), QueueRequest(present, 1)]
                 else if graphics == present then [QueueRequest(graphics, 1)]
                 else [QueueRequest(present, 1), QueueRequest(graphics, 1)]
  {
    var a, b := QueueRequest(graphics, 1), QueueRequest(present, 1);
    SortUniquePair(a, b);
    UniqueByFamily(SortByFamily([a, b]))
  }

  /** Sorting and de-duplicating two requests, worked out case by case. */
  lemma SortUniquePair(a: QueueRequest, b: QueueRequest)
    ensures UniqueByFamily(SortByFamily([a, b])) ==
      if a.familyIndex < b.familyIndex then [a, b]
      else if a.familyIndex == b.familyIndex then [a]
      else [b, a]
  {
    assert [a, b][1..] == [b] && [b][1..] == [];
    assert SortByFamily([b]) == [b];
    var sorted := SortByFamily([a, b]);
    assert sorted == if a.familyIndex <= b.familyIndex then [a, b] else [b, a];
    if a.familyIndex == b.familyIndex {
      assert [a] + [a, b][2..] == [a];
      assert UniqueByFamily([a]) == [a];
    } else if a.familyIndex < b.familyIndex {
      assert UniqueByFamily([b]) == [b];
    } else {
      assert [b, a][1..] == [a];
      assert UniqueByFamily([a]) == [a];
    }
  }

  /** The device is asked for exactly the families it will take queues from, each once. */
  lemma QueueCreateInfosOnePerFamily(graphics: nat, present: nat)
    ensures StrictlyAscending(QueueCreateInfos(graphics, present))
    ensures Families(QueueCreateInfos(graphics, present)) == {graphics, present}
    ensures forall x :: x in QueueCreateInfos(graphics, present) ==> x.queueCount == 1
  {
    var a, b := QueueRequest(graphics, 1), QueueRequest(present, 1);
    if graphics < present {
      assert Families([a, b]) == {graphics, present};
    } else if graphics > present {
      assert Families([b, a]) == {graphics, present};
    } else {
      assert Families([a]) == {graphics};
    }
  }

  /**
   * The calls of `InitializeLogicalDevice` and whether it succeeds: it fails
   * without a call when no family has the graphics bit or none can present;
   * otherwise it creates the device with the de-duplicated queue list and one
   * extension (the swapchain) and, when that succeeds, fetches queue 0 of the
   * graphics family and then of the present family.
   */
  function LogicalDeviceOutcome(families: seq<QueueFamily>, created: Result): (o: Outcome<Call>)
    ensures var g := GraphicsFamilyIndex(families); var p := PresentFamilyIndex(families);
      && (o.ok <==> g < |families| && p < |families| && created == Success)
      && PrefixRun(o, [CreateDevice(QueueCreateInfos(g, p), 1), GetQueue(g, 0), GetQueue(p, 0)])
  {
    var g := GraphicsFamilyIndex(families);
    var p := PresentFamilyIndex(families);
    if g == |families| || p == |families| then Outcome(false, [])
    else if created != Success then Outcome(false, [CreateDevice(QueueCreateInfos(g, p), 1)])
    else Outcome(true, [CreateDevice(QueueCreateInfos(g, p), 1), GetQueue(g, 0), GetQueue(p, 0)])
  }

  /**
   * The family search and the device request it leads to: the device is
   * created only when some family has the graphics bit and some family can
   * present, with the lowest such families; a failure of either search is
   * reported only when no family qualifies.
   */
  lemma LogicalDeviceRequest(families: seq<QueueFamily>, created: Result)
    ensures var o := LogicalDeviceOutcome(families, created);
      var g := GraphicsFamilyIndex(families);
      var p := PresentFamilyIndex(families);
      && (o.ok <==> g < |families| && p < |families| && created == Success)
      && (g == |families| ==> o.calls == [] && forall f :: f in families ==> !HasGraphics(f))
      && (g < |families| && p == |families| ==> o.calls == [] && forall f :: f in families ==> !f.presentSupport)
      && (g < |families| && p < |families| ==>
            && HasGraphics(families[g]) && families[p].presentSupport
            && (forall j :: 0 <= j < g ==> !HasGraphics(families[j]))
            && (forall j :: 0 <= j < p ==> !families[j].presentSupport)
            && o.calls[0] == CreateDevice(QueueCreateInfos(g, p), 1)
            && |o.calls| == (if created == Success then 3 else 1))
  {
    var g := GraphicsFamilyIndex(families);
    var p := PresentFamilyIndex(families);
    if g == |families| {
      forall f | f in families ensures !HasGraphics(f) {
        var k :| 0 <= k < |families| && families[k] == f;
      }
    } else if p == |families| {
      forall f | f in families ensures !f.presentSupport {
        var k :| 0 <= k < |families| && families[k] == f;
      }
    }
  }

  /**
   * The presentation-family loop of `InitializeLogicalDevice`: ask each family
   * in index order whether it can present and stop at the first that can.
   */
  method FindPresentFamily(families: seq<QueueFamily>) returns (p: nat)
    ensures p <= |families|
    ensures p < |families| ==> families[p].presentSupport
    ensures forall j :: 0 <= j < p ==> !families[j].presentSupport
    ensures p == PresentFamilyIndex(families)
  {
    p := |families|;
    var index := 0;
    while index < |families|
      invariant 0 <= index <= |families|
      invariant p == |families|
      invariant forall j :: 0 <= j < index ==> !families[j].presentSupport
    {
      if families[index].presentSupport {
        p := index;
        break;
      }
      index := index + 1;
    }
    PresentFamilyIndexIsFirst(families, p);
  }

  /** The queue data `DeviceData` keeps per role (`CommandData` without its unused pool fields). */
  datatype CommandData = CommandData(familyIndex: nat, queue: Handle)

  /** A placeholder physical device: the null `vk::PhysicalDevice` before selection. */
  const NoPhysicalDevice := PhysicalDevice(NullHandle, OtherGpu, [], MemoryProperties(0, []))

  class DeviceData {
    var instance: Handle
    var physical: PhysicalDevice
    var logical: Handle
    var graphicsQueueData: CommandData
    var presentQueueData: CommandData
    /** The calls this object has made, oldest first. */
    ghost var trace: seq<Call>

    constructor ()
      ensures instance == NullHandle && logical == NullHandle && physical == NoPhysicalDevice
      ensures graphicsQueueData == CommandData(0, NullHandle) && presentQueueData == CommandData(0, NullHandle)
      ensures trace == []
    {
      instance := NullHandle;
      physical := NoPhysicalDevice;
      logical := NullHandle;
      graphicsQueueData := CommandData(0, NullHandle);
      presentQueueData := CommandData(0, NullHandle);
      trace := [];
    }

    /**
     * Enumerate the physical devices and keep the preferred one. The result
     * code of the enumeration is not consulted: only an empty list fails.
     */
    method InitializePhysicalDevice(enumerated: Reply<seq<PhysicalDevice>>) returns (ok: bool)
      modifies this
      ensures trace == old(trace) + [EnumeratePhysicalDevices]
      ensures ok <==> |enumerated.value| > 0
      ensures physical == if ok then enumerated.value[PreferredDeviceIndex(enumerated.value)] else old(physical)
      ensures instance == old(instance) && logical == old(logical)
      ensures graphicsQueueData == old(graphicsQueueData) && presentQueueData == old(presentQueueData)
    {
      trace := trace + [EnumeratePhysicalDevices];
      var devices := enumerated.value;
      if |devices| == 0 {
        return false;
      }
      physical := devices[0];
      var t := 0;
      while t < |PreferredTypes|
        invariant 0 <= t <= |PreferredTypes|
        invariant physical == devices[0]
        invariant forall u :: 0 <= u < t ==> FirstOfType(devices, PreferredTypes[u]) == |devices|
      {
        var k := FirstOfType(devices, PreferredTypes[t]);
        if k < |devices| {
          assert t == 1 ==> FirstOfType(devices, PreferredTypes[0]) == |devices|;
          physical := devices[k];
          break;
        }
        t := t + 1;
      }
      assert t == |PreferredTypes| ==>
        FirstOfType(devices, PreferredTypes[0]) == |devices| &&
        FirstOfType(devices, PreferredTypes[1]) == |devices|;
      return true;
    }

    /**
     * Pick the graphics and present families of `physical`, create the
     * logical device with the de-duplicated queue list, then fetch the two
     * queues. `graphicsQueue` and `presentQueue` are the handles getQueue
     * answers.
     */
    method InitializeLogicalDevice(created: Reply<Handle>, graphicsQueue: Handle, presentQueue: Handle)
      returns (ok: bool)
      modifies this
      ensures var o := LogicalDeviceOutcome(physical.queueFamilies, created.result);
        ok == o.ok && trace == old(trace) + o.calls
      ensures physical == old(physical) && instance == old(instance)
      ensures var families := physical.queueFamilies;
        var g := GraphicsFamilyIndex(families);
        var p := PresentFamilyIndex(families);
        if g < |families| && p < |families| then
          && logical == created.value
          && graphicsQueueData == CommandData(g, if ok then graphicsQueue else old(graphicsQueueData).queue)
          && presentQueueData == CommandData(p, if ok then presentQueue else old(presentQueueData).queue)
        else
          && logical == old(logical)
          && graphicsQueueData == old(graphicsQueueData)
          && presentQueueData == old(presentQueueData)
    {
      var families := physical.queueFamilies;
      var g := GraphicsFamilyIndex(families);
      if g == |families| {
        return false;
      }
      var p := FindPresentFamily(families);
      if p == |families| {
        return false;
      }
      ok := CreateLogicalDevice(g, p, created, graphicsQueue, presentQueue);
    }

    /**
     * The second half of `InitializeLogicalDevice`, once both families are
     * known: create the device with the de-duplicated queue list and, if
     * that succeeds, fetch the two queues.
     */
    method CreateLogicalDevice(g: nat, p: nat, created: Reply<Handle>, graphicsQueue: Handle, presentQueue: Handle)
      returns (ok: bool)
      modifies this
      ensures ok <==> created.result == Success
      ensures trace == old(trace) + [CreateDevice(QueueCreateInfos(g, p), 1)]
        + (if ok then [GetQueue(g, 0), GetQueue(p, 0)] else [])
      ensures logical == created.value
      ensures graphicsQueueData == CommandData(g, if ok then graphicsQueue else old(graphicsQueueData).queue)
      ensures presentQueueData == CommandData(p, if ok then presentQueue else old(presentQueueData).queue)
      ensures physical == old(physical) && instance == old(instance)
    {
      var queueCreateInfos := QueueCreateInfos(g, p);
      trace := trace + [CreateDevice(queueCreateInfos, 1)];
      logical := created.value;
      if created.result != Success {
        graphicsQueueData := graphicsQueueData.(familyIndex := g);
        presentQueueData := presentQueueData.(familyIndex := p);
        return false;
      }
      trace := trace + [GetQueue(g, 0), GetQueue(p, 0)];
      graphicsQueueData := CommandData(g, graphicsQueue);
      presentQueueData := CommandData(p, presentQueue);
      return true;
    }
  }

  // ---------------------------------------------------------------------
  // Buffers
  // ---------------------------------------------------------------------

  /** A `VkBufferCreateInfo`: the byte size and the usage bits. */
  datatype BufferCreateInfo = BufferCreateInfo(size: nat, usage: bv32)

  /**
   * The driver's answers to `CreateBufferObject`: createBuffer, the size from
   * getBufferMemoryRequirements, allocateMemory, bindBufferMemory and mapMemory.
   */
  datatype BufferReplies = BufferReplies(
    created: Reply<Handle>,
    requirementsSize: nat,
    allocation: Reply<Handle>,
    bound: Result,
    mapped: Result)

  /**
   * The calls of `CreateBufferObject` and whether it succeeds: create the
   * buffer, look up a host-visible memory type (no call), allocate, bind at
   * offset 0, map the whole size and, after the copy, unmap.
   */
  function BufferObjectOutcome(props: MemoryProperties, info: BufferCreateInfo, r: BufferReplies): (o: Outcome<Call>)
    requires props.memoryTypeCount <= |props.memoryTypes|
    ensures o.ok <==> && r.created.result == Success && Helpers.MemoryTypeLookup(props, MemoryHostVisibleBit).0
                      && r.allocation.result == Success && r.bound == Success && r.mapped == Success
    ensures PrefixRun(o, BufferObjectFullCalls(props, info, r))
  {
    var (found, index) := Helpers.MemoryTypeLookup(props, MemoryHostVisibleBit);
    var create := CreateBuffer(info.size, info.usage);
    var allocate := AllocateMemory(r.requirementsSize, index);
    var bind := BindBufferMemory(r.created.value, r.allocation.value, 0);
    var mapping := MapMemory(r.allocation.value, 0, info.size);
    if r.created.result != Success || !found then Outcome(false, [create])
    else if r.allocation.result != Success then Outcome(false, [create, allocate])
    else if r.bound != Success then Outcome(false, [create, allocate, bind])
    else if r.mapped != Success then Outcome(false, [create, allocate, bind, mapping])
    else Outcome(true, [create, allocate, bind, mapping, UnmapMemory(r.allocation.value)])
  }

  /** The calls of a `CreateBufferObject` in which every step succeeds. */
  function BufferObjectFullCalls(props: MemoryProperties, info: BufferCreateInfo, r: BufferReplies): seq<Call>
    requires props.memoryTypeCount <= |props.memoryTypes|
  {
    var index := Helpers.MemoryTypeLookup(props, MemoryHostVisibleBit).1;
    [ CreateBuffer(info.size, info.usage),
      AllocateMemory(r.requirementsSize, index),
      BindBufferMemory(r.created.value, r.allocation.value, 0),
      MapMemory(r.allocation.value, 0, info.size),
      UnmapMemory(r.allocation.value) ]
  }

  /**
   * `CreateBufferObject` succeeds exactly when every step does; it then makes
   * the five calls in order, binding at offset 0 memory of a host-visible
   * type. A failure stops the chain: the calls made are the prefix of that
   * sequence that ends at the failing call, so the buffer is never unmapped
   * unless it was mapped, and nothing is allocated without a memory type.
   */
  lemma BufferObjectStopsAtFirstFailure(props: MemoryProperties, info: BufferCreateInfo, r: BufferReplies)
    requires props.memoryTypeCount <= |props.memoryTypes|
    ensures var o := BufferObjectOutcome(props, info, r);
      var full := BufferObjectFullCalls(props, info, r);
      var (found, index) := Helpers.MemoryTypeLookup(props, MemoryHostVisibleBit);
      && (o.ok <==> r.created.result == Success && found && r.allocation.result == Success
                    && r.bound == Success && r.mapped == Success)
      && (o.ok ==> o.calls == full
                   && props.memoryTypes[index].propertyFlags & MemoryHostVisibleBit == MemoryHostVisibleBit)
      && (r.created.result != Success ==> o.calls == full[..1])
      && (r.created.result == Success && !found ==> o.calls == full[..1])
      && (r.created.result == Success && found && r.allocation.result != Success ==> o.calls == full[..2])
      && ((r.created.result == Success && found && r.allocation.result == Success && r.bound != Success)
            ==> o.calls == full[..3])
      && ((r.created.result == Success && found && r.allocation.result == Success && r.bound == Success
           && r.mapped != Success) ==> o.calls == full[..4])
  {
    Helpers.HostVisibleLookupIsHostVisible(props);
  }

  /** The descriptor writes `UpdateDescriptorSet` issues: one per set, each covering the whole buffer. */
  function DescriptorWrites(buffer: Handle, sets: seq<Handle>, counts: seq<nat>, binding: LayoutBinding, range: nat)
    : (r: seq<Call>)
    requires |counts| >= |sets|
    ensures |r| == |sets|
    ensures forall i :: 0 <= i < |sets| ==>
      r[i].UpdateDescriptorSet? && r[i].write.dstSet == sets[i] && r[i].write.offset == 0 &&
      r[i].write.range == range && r[i].write.descriptorCount == counts[i] && r[i].write.buffer == buffer
  {
    seq(|sets|, i requires 0 <= i < |sets| =>
      UpdateDescriptorSet(DescriptorWrite(sets[i], binding.binding, 0, counts[i], binding.descriptorType,
                                          buffer, 0, range)))
  }

  /** The pool `CreateDescriptorPool` asks for: one set, one pool size copied from the binding. */
  function DescriptorPoolRequest(binding: LayoutBinding): Call {
    CreateDescriptorPool(1, [PoolSize(binding.descriptorType, binding.descriptorCount)])
  }

  /**
   * The calls of `CreateBuffer` with a descriptor binding: the buffer chain,
   * then layout, pool and set; only when all of them succeed does the update
   * run, with the descriptor counts the object holds after the pool step.
   */
  function DescribedBufferOutcome(
    props: MemoryProperties, info: BufferCreateInfo, r: BufferReplies, binding: LayoutBinding,
    layout: Reply<Handle>, pool: Reply<Handle>, sets: Reply<seq<Handle>>, counts: seq<nat>): (o: Outcome<Call>)
    requires props.memoryTypeCount <= |props.memoryTypes|
    requires sets.result == Success ==> |sets.value| == 1
    ensures o.ok <==> && BufferObjectOutcome(props, info, r).ok
                      && layout.result == Success && pool.result == Success && sets.result == Success
    ensures BufferObjectOutcome(props, info, r).calls <= o.calls
  {
    var o := BufferObjectOutcome(props, info, r)
      .Then(Step(CreateDescriptorSetLayout([binding]), layout.result))
      .Then(Step(DescriptorPoolRequest(binding), pool.result))
      .Then(Step(AllocateDescriptorSets(pool.value, [layout.value]), sets.result));
    if o.ok then
      Outcome(true, o.calls + DescriptorWrites(r.created.value, sets.value, counts + [1], binding, info.size))
    else o
  }

  /**
   * The descriptor chain: `CreateBuffer` with a binding succeeds only when
   * buffer, layout, pool and set all succeed, and only then are descriptor
   * writes issued — one, for the one allocated set, at offset 0 over the
   * whole buffer, with the first descriptor count the object holds.
   */
  lemma DescribedBufferUpdatesOnlyOnSuccess(
    props: MemoryProperties, info: BufferCreateInfo, r: BufferReplies, binding: LayoutBinding,
    layout: Reply<Handle>, pool: Reply<Handle>, sets: Reply<seq<Handle>>, counts: seq<nat>)
    requires props.memoryTypeCount <= |props.memoryTypes|
    requires sets.result == Success ==> |sets.value| == 1
    ensures var o := DescribedBufferOutcome(props, info, r, binding, layout, pool, sets, counts);
      var b := BufferObjectOutcome(props, info, r);
      && (o.ok <==> b.ok && layout.result == Success && pool.result == Success && sets.result == Success)
      && (!o.ok ==> forall c :: c in o.calls ==> !c.UpdateDescriptorSet?)
      && (o.ok ==> |o.calls| == |b.calls| + 4
                   && o.calls[|o.calls| - 4] == CreateDescriptorSetLayout([binding])
                   && o.calls[|o.calls| - 3] == CreateDescriptorPool(1, [PoolSize(binding.descriptorType, binding.descriptorCount)])
                   && o.calls[|o.calls| - 1] == UpdateDescriptorSet(DescriptorWrite(
                        sets.value[0], binding.binding, 0, (counts + [1])[0], binding.descriptorType,
                        r.created.value, 0, info.size)))
  {
    var b := BufferObjectOutcome(props, info, r);
    var o := DescribedBufferOutcome(props, info, r, binding, layout, pool, sets, counts);
    if !o.ok {
      assert forall c :: c in b.calls ==> !c.UpdateDescriptorSet?;
    }
  }

  /** The `memcpy` into mapped memory: the first `n` bytes of `dst` become those of `src`. */
  method CopyBytes(dst: array<bv8>, src: seq<bv8>, n: nat)
    requires n <= dst.Length && n <= |src|
    modifies dst
    ensures dst[..n] == src[..n]
    ensures dst[n..] == old(dst[n..])
  {
    for i := 0 to n
      invariant dst[..i] == src[..i]
      invariant dst[n..] == old(dst[n..])
    {
      dst[i] := src[i];
      assert dst[..i + 1] == dst[..i] + [dst[i]];
    }
  }

  /** Mapped memory of `size` bytes whose first `n` bytes are copied from `src`. */
  method MapAndCopy(size: nat, src: seq<bv8>, n: nat) returns (mapped: array<bv8>)
    requires n <= size && n <= |src|
    ensures fresh(mapped) && mapped.Length == size && mapped[..n] == src[..n]
  {
    mapped := new bv8[size];
    CopyBytes(mapped, src, n);
  }

  /**
   * `Buffer`: a buffer object, its memory and its descriptor objects.
   * `memoryBytes` is the host's view of the allocation behind `memory` as
   * of the last successful map; a bind or map failure stores the new
   * `memory` handle but leaves `memoryBytes` as it was.
   */
  class Buffer {
    var buffer: Handle
    var memory: Handle
    var memoryBytes: array<bv8>
    var layouts: seq<Handle>
    var sets: seq<Handle>
    var descriptorsCount: seq<nat>
    var pool: Handle
    ghost var trace: seq<Call>

    constructor ()
      ensures buffer == NullHandle && memory == NullHandle && memoryBytes.Length == 0
      ensures layouts == [] && sets == [] && descriptorsCount == [] && pool == NullHandle
      ensures trace == []
    {
      buffer := NullHandle;
      memory := NullHandle;
      memoryBytes := new bv8[0];
      layouts := [];
      sets := [];
      descriptorsCount := [];
      pool := NullHandle;
      trace := [];
    }

    /**
     * CreateBufferObject: create, find a host-visible memory type, allocate,
     * bind at offset 0, map, copy `info.size` bytes of `data`, unmap.
     * `r.requirementsSize` is at least the buffer size, as Vulkan guarantees.
     */
    method CreateBufferObject(deviceData: DeviceData, info: BufferCreateInfo, data: seq<bv8>, r: BufferReplies)
      returns (ok: bool)
      requires deviceData.physical.memoryProperties.memoryTypeCount <= |deviceData.physical.memoryProperties.memoryTypes|
      requires |data| >= info.size && r.requirementsSize >= info.size
      modifies this
      ensures var o := BufferObjectOutcome(deviceData.physical.memoryProperties, info, r);
        ok == o.ok && trace == old(trace) + o.calls
      ensures buffer == r.created.value
      ensures var found := Helpers.MemoryTypeLookup(deviceData.physical.memoryProperties, MemoryHostVisibleBit).0;
        memory == (if r.created.result == Success && found then r.allocation.value else old(memory))
      ensures ok ==> (fresh(memoryBytes) && memoryBytes.Length == r.requirementsSize
                      && memoryBytes[..info.size] == data[..info.size])
      ensures !ok ==> memoryBytes == old(memoryBytes)
      ensures layouts == old(layouts) && sets == old(sets) && descriptorsCount == old(descriptorsCount)
      ensures pool == old(pool)
    {
      var props := deviceData.physical.memoryProperties;
      ghost var o := BufferObjectOutcome(props, info, r);
      trace := trace + [Call.CreateBuffer(info.size, info.usage)];
      buffer := r.created.value;
      if r.created.result != Success {
        assert o == Outcome(false, [Call.CreateBuffer(info.size, info.usage)]);
        return false;
      }
      var memoryTypeFound, memoryTypeIndex := Helpers.FindMemoryTypeIndex(props, MemoryHostVisibleBit);
      if !memoryTypeFound {
        assert o == Outcome(false, [Call.CreateBuffer(info.size, info.usage)]);
        return false;
      }
      ok := AllocateAndMap(info, data, r, memoryTypeIndex);
    }

    /**
     * The rest of `CreateBufferObject` once the buffer exists and a memory
     * type was found: allocate, bind, map, copy and unmap.
     */
    method AllocateAndMap(info: BufferCreateInfo, data: seq<bv8>, r: BufferReplies, memoryTypeIndex: nat)
      returns (ok: bool)
      requires |data| >= info.size && r.requirementsSize >= info.size
      modifies this
      ensures var allocate := AllocateMemory(r.requirementsSize, memoryTypeIndex);
        var bind := BindBufferMemory(buffer, r.allocation.value, 0);
        var mapping := MapMemory(r.allocation.value, 0, info.size);
        && ok == (r.allocation.result == Success && r.bound == Success && r.mapped == Success)
        && trace == old(trace) +
          if r.allocation.result != Success then [allocate]
          else if r.bound != Success then [allocate, bind]
          else if r.mapped != Success then [allocate, bind, mapping]
          else [allocate, bind, mapping, UnmapMemory(r.allocation.value)]
      ensures memory == r.allocation.value && buffer == old(buffer)
      ensures ok ==> (fresh(memoryBytes) && memoryBytes.Length == r.requirementsSize
                      && memoryBytes[..info.size] == data[..info.size])
      ensures !ok ==> memoryBytes == old(memoryBytes)
      ensures layouts == old(layouts) && sets == old(sets) && descriptorsCount == old(descriptorsCount)
      ensures pool == old(pool)
    {
      trace := trace + [AllocateMemory(r.requirementsSize, memoryTypeIndex)];
      memory := r.allocation.value;
      if r.allocation.result != Success {
        return false;
      }
      trace := trace + [BindBufferMemory(buffer, memory, 0)];
      if r.bound != Success {
        return false;
      }
      trace := trace + [MapMemory(memory, 0, info.size)];
      if r.mapped != Success {
        return false;
      }
      memoryBytes := MapAndCopy(r.requirementsSize, data, info.size);
      trace := trace + [UnmapMemory(memory)];
      return true;
    }

    /** CreateBuffer without a descriptor binding: the buffer chain alone. */
    method CreateBuffer(deviceData: DeviceData, info: BufferCreateInfo, data: seq<bv8>, r: BufferReplies)
      returns (ok: bool)
      requires deviceData.physical.memoryProperties.memoryTypeCount <= |deviceData.physical.memoryProperties.memoryTypes|
      requires |data| >= info.size && r.requirementsSize >= info.size
      modifies this
      ensures var o := BufferObjectOutcome(deviceData.physical.memoryProperties, info, r);
        ok == o.ok && trace == old(trace) + o.calls
      ensures buffer == r.created.value
      ensures var found := Helpers.MemoryTypeLookup(deviceData.physical.memoryProperties, MemoryHostVisibleBit).0;
        memory == (if r.created.result == Success && found then r.allocation.value else old(memory))
      ensures ok ==> (fresh(memoryBytes) && memoryBytes.Length == r.requirementsSize
                      && memoryBytes[..info.size] == data[..info.size])
      ensures !ok ==> memoryBytes == old(memoryBytes)
      ensures layouts == old(layouts) && sets == old(sets) && descriptorsCount == old(descriptorsCount)
      ensures pool == old(pool)
    {
      ok := CreateBufferObject(deviceData, info, data, r);
    }

    /** CreateDescriptorSetLayout: a one-binding layout; `layouts` becomes that one handle. */
    method CreateDescriptorSetLayout(binding: LayoutBinding, created: Reply<Handle>) returns (ok: bool)
      modifies this
      ensures ok == (created.result == Success)
      ensures trace == old(trace) + [Call.CreateDescriptorSetLayout([binding])]
      ensures layouts == [created.value]
      ensures buffer == old(buffer) && memory == old(memory) && memoryBytes == old(memoryBytes)
      ensures sets == old(sets) && descriptorsCount == old(descriptorsCount) && pool == old(pool)
    {
      layouts := [created.value];
      trace := trace + [Call.CreateDescriptorSetLayout([binding])];
      ok := created.result == Success;
    }

    /** CreateDescriptorPool: a pool of one set; on success the pool-size count (1) is appended. */
    method CreateDescriptorPool(binding: LayoutBinding, created: Reply<Handle>) returns (ok: bool)
      modifies this
      ensures ok == (created.result == Success)
      ensures trace == old(trace) + [DescriptorPoolRequest(binding)]
      ensures pool == created.value
      ensures descriptorsCount == if ok then old(descriptorsCount) + [1] else old(descriptorsCount)
      ensures buffer == old(buffer) && memory == old(memory) && memoryBytes == old(memoryBytes)
      ensures layouts == old(layouts) && sets == old(sets)
    {
      trace := trace + [DescriptorPoolRequest(binding)];
      pool := created.value;
      if created.result != Success {
        return false;
      }
      descriptorsCount := descriptorsCount + [1];
      return true;
    }

    /** CreateDescriptorSet: allocate one set per layout from the pool. */
    method CreateDescriptorSet(reply: Reply<seq<Handle>>) returns (ok: bool)
      modifies this
      ensures ok == (reply.result == Success)
      ensures trace == old(trace) + [AllocateDescriptorSets(pool, layouts)]
      ensures sets == reply.value
      ensures buffer == old(buffer) && memory == old(memory) && memoryBytes == old(memoryBytes)
      ensures layouts == old(layouts) && descriptorsCount == old(descriptorsCount) && pool == old(pool)
    {
      trace := trace + [AllocateDescriptorSets(pool, layouts)];
      sets := reply.value;
      ok := reply.result == Success;
    }

    /** UpdateDescriptorSet: point every set at this buffer, offset 0, `range` bytes. */
    method UpdateDescriptorSet(binding: LayoutBinding, range: nat)
      requires |descriptorsCount| >= |sets|
      modifies this`trace
      ensures trace == old(trace) + DescriptorWrites(buffer, sets, descriptorsCount, binding, range)
    {
      ghost var writes := DescriptorWrites(buffer, sets, descriptorsCount, binding, range);
      var i := 0;
      while i < |sets|
        invariant 0 <= i <= |sets|
        invariant trace == old(trace) + writes[..i]
      {
        var write := DescriptorWrite(sets[i], binding.binding, 0, descriptorsCount[i], binding.descriptorType,
                                     buffer, 0, range);
        trace := trace + [Call.UpdateDescriptorSet(write)];
        assert writes[..i + 1] == writes[..i] + [writes[i]];
        i := i + 1;
      }
      assert writes[..|sets|] == writes;
    }

    /**
     * CreateBuffer with a descriptor binding: the buffer chain, then layout,
     * pool and set; the update runs only when all of them succeeded. The
     * driver answers allocateDescriptorSets with one set per layout.
     */
    method CreateBufferWithDescriptor(
      deviceData: DeviceData, info: BufferCreateInfo, data: seq<bv8>, r: BufferReplies, binding: LayoutBinding,
      layout: Reply<Handle>, poolReply: Reply<Handle>, setsReply: Reply<seq<Handle>>) returns (ok: bool)
      requires deviceData.physical.memoryProperties.memoryTypeCount <= |deviceData.physical.memoryProperties.memoryTypes|
      requires |data| >= info.size && r.requirementsSize >= info.size
      requires setsReply.result == Success ==> |setsReply.value| == 1
      modifies this
      ensures var o := DescribedBufferOutcome(deviceData.physical.memoryProperties, info, r, binding,
                                              layout, poolReply, setsReply, old(descriptorsCount));
        ok == o.ok && trace == old(trace) + o.calls
      ensures buffer == r.created.value
      ensures var found := Helpers.MemoryTypeLookup(deviceData.physical.memoryProperties, MemoryHostVisibleBit).0;
        memory == (if r.created.result == Success && found then r.allocation.value else old(memory))
      ensures var built := BufferObjectOutcome(deviceData.physical.memoryProperties, info, r).ok;
        && (built ==> fresh(memoryBytes) && memoryBytes.Length == r.requirementsSize
                      && memoryBytes[..info.size] == data[..info.size])
        && (!built ==> memoryBytes == old(memoryBytes))
      // Each descriptor field holds its step's reply once that step ran, whatever the reply.
      ensures var built := BufferObjectOutcome(deviceData.physical.memoryProperties, info, r).ok;
        var laidOut := built && layout.result == Success;
        var pooled := laidOut && poolReply.result == Success;
        && layouts == (if built then [layout.value] else old(layouts))
        && pool == (if laidOut then poolReply.value else old(pool))
        && descriptorsCount == (if pooled then old(descriptorsCount) + [1] else old(descriptorsCount))
        && sets == (if pooled then setsReply.value else old(sets))
    {
      ghost var t0 := trace;
      ghost var o := BufferObjectOutcome(deviceData.physical.memoryProperties, info, r);
      ok := CreateBuffer(deviceData, info, data, r);
      if !ok {
        return;
      }
      ghost var step := Step(Call.CreateDescriptorSetLayout([binding]), layout.result);
      ok := CreateDescriptorSetLayout(binding, layout);
      AppendAssoc(t0, o.calls, step.calls);
      o := o.Then(step);
      if !ok {
        return;
      }
      step := Step(DescriptorPoolRequest(binding), poolReply.result);
      ok := CreateDescriptorPool(binding, poolReply);
      AppendAssoc(t0, o.calls, step.calls);
      o := o.Then(step);
      if !ok {
        return;
      }
      step := Step(AllocateDescriptorSets(pool, layouts), setsReply.result);
      ok := CreateDescriptorSet(setsReply);
      AppendAssoc(t0, o.calls, step.calls);
      o := o.Then(step);
      if !ok {
        return;
      }
      UpdateDescriptorSet(binding, info.size);
      ok := true;
    }
  }

  // ---------------------------------------------------------------------
  // Shaders
  // ---------------------------------------------------------------------

  /** A `VkPipelineShaderStageCreateInfo`: stage, module and entry-point name. */
  datatype ShaderStageInfo = ShaderStageInfo(stage: ShaderStage, shaderModule: Handle, entryPoint: string)

  /** The two steps of `CreateShader`: load the SPIR-V file (opaque), then create the module. */
  function ShaderOutcome(loaded: bool, created: Result): (o: Outcome<Call>)
    ensures o.ok <==> loaded && created == Success
    ensures PrefixRun(o, [LoadShaderCode, CreateShaderModule])
  {
    Probe(LoadShaderCode, loaded).Then(Step(CreateShaderModule, created))
  }

  class Shader {
    var shaderModule: Handle
    var stageInfo: ShaderStageInfo
    ghost var trace: seq<Call>

    constructor ()
      ensures shaderModule == NullHandle && trace == []
    {
      shaderModule := NullHandle;
      stageInfo := ShaderStageInfo(VertexStage, NullHandle, "");
      trace := [];
    }

    /**
     * CreateShader: `loaded` is what loading the SPIR-V file reported. No module
     * is created after a failed load; the stage description is filled only
     * after the module was created.
     */
    method CreateShader(name: string, stage: ShaderStage, loaded: bool, created: Reply<Handle>) returns (ok: bool)
      modifies this
      ensures var o := ShaderOutcome(loaded, created.result); ok == o.ok && trace == old(trace) + o.calls
      ensures shaderModule == if loaded then created.value else old(shaderModule)
      ensures stageInfo == if ok then ShaderStageInfo(stage, created.value, name) else old(stageInfo)
    {
      trace := trace + [LoadShaderCode];
      if !loaded {
        return false;
      }
      trace := trace + [CreateShaderModule];
      shaderModule := created.value;
      if created.result != Success {
        return false;
      }
      stageInfo := ShaderStageInfo(stage, shaderModule, name);
      return true;
    }
  }
}
