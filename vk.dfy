/**
 * The driver boundary shared by every component of the compositor.
 *
 * Nothing here calls a GPU: a Vulkan or GLFW call is an opaque step whose
 * reply (a `Result` and, for a creation, the new handle) is an input of the
 * model, and every call a component makes is appended to that component's
 * call log (each component declares its own `Call` type; destroy calls are
 * `Teardown` entries, shared by all).
 * `Outcome` pairs "did the step chain succeed" with the calls it made;
 * `Then` is the C++ `&&` of two steps: the second one runs only when the
 * first one succeeded.
 */
module Vk {

  /** The subset of `VkResult` the compositor can observe. */
  datatype Result =
    | Success
    | NotReady
    | Timeout
    | Suboptimal
    | ErrorOutOfHostMemory
    | ErrorOutOfDeviceMemory
    | ErrorInitializationFailed
    | ErrorDeviceLost
    | ErrorSurfaceLost
    | ErrorOutOfDate

  /** A dispatchable or non-dispatchable handle; 0 is VK_NULL_HANDLE. */
  type Handle = nat

  const NullHandle: Handle := 0

  /** The handle wrappers' `operator bool`: true for a non-null handle. */
  predicate IsValid(h: Handle) {
    h != NullHandle
  }

  /** What a Vulkan call hands back: its result code and the value it wrote. */
  datatype Reply<T> = Reply(result: Result, value: T)

  // Bits of the Vulkan flag words the compositor tests.
  const QueueGraphicsBit: bv32 := 0x1            // VK_QUEUE_GRAPHICS_BIT
  const MemoryHostVisibleBit: bv32 := 0x2        // VK_MEMORY_PROPERTY_HOST_VISIBLE_BIT
  const CompositeAlphaOpaqueBit: bv32 := 0x1     // VK_COMPOSITE_ALPHA_OPAQUE_BIT_KHR
  const ImageUsageColorAttachmentBit: bv32 := 0x10  // VK_IMAGE_USAGE_COLOR_ATTACHMENT_BIT
  const BufferUsageVertexBufferBit: bv32 := 0x80    // VK_BUFFER_USAGE_VERTEX_BUFFER_BIT

  datatype PhysicalDeviceType = OtherGpu | IntegratedGpu | DiscreteGpu | VirtualGpu | CpuDevice

  /**
   * One queue family of a physical device: its capability bits and whether
   * it can present to the window's surface (the answer of
   * getSurfaceSupportKHR, or of glfwGetPhysicalDevicePresentationSupport).
   */
  datatype QueueFamily = QueueFamily(queueFlags: bv32, presentSupport: bool)

  datatype MemoryType = MemoryType(propertyFlags: bv32)

  /** `VkPhysicalDeviceMemoryProperties`: only the first `memoryTypeCount` types are meaningful. */
  datatype MemoryProperties = MemoryProperties(memoryTypeCount: nat, memoryTypes: seq<MemoryType>)

  /** What the compositor reads from an enumerated physical device. */
  datatype PhysicalDevice = PhysicalDevice(
    handle: Handle,
    deviceType: PhysicalDeviceType,
    queueFamilies: seq<QueueFamily>,
    memoryProperties: MemoryProperties)

  /** The family's queue flags include the graphics bit. */
  predicate HasGraphics(f: QueueFamily) {
    f.queueFlags & QueueGraphicsBit != 0
  }

  /** `std::find_if` over devices by type: the first device of type `t`, or `|devices|` when there is none. */
  function FirstOfType(devices: seq<PhysicalDevice>, t: PhysicalDeviceType): (k: nat)
    ensures k <= |devices|
    ensures k < |devices| ==> devices[k].deviceType == t
    ensures forall j :: 0 <= j < k ==> devices[j].deviceType != t
  {
    if |devices| == 0 then 0
    else if devices[0].deviceType == t then 0
    else 1 + FirstOfType(devices[1..], t)
  }

  /** A `VkDeviceQueueCreateInfo`: one family index and how many queues of it. */
  datatype QueueRequest = QueueRequest(familyIndex: nat, queueCount: nat)

  datatype DescriptorType = UniformBuffer | StorageBuffer | CombinedImageSampler

  /** A `VkDescriptorSetLayoutBinding`. */
  datatype LayoutBinding = LayoutBinding(binding: nat, descriptorType: DescriptorType, descriptorCount: nat)

  /** A `VkDescriptorPoolSize`. */
  datatype PoolSize = PoolSize(descriptorType: DescriptorType, descriptorCount: nat)

  /** A `VkWriteDescriptorSet` with its single `VkDescriptorBufferInfo`. */
  datatype DescriptorWrite = DescriptorWrite(
    dstSet: Handle,
    dstBinding: nat,
    dstArrayElement: nat,
    descriptorCount: nat,
    descriptorType: DescriptorType,
    buffer: Handle,
    offset: nat,
    range: nat)

  datatype Format = B8G8R8A8Unorm | R8G8B8A8Unorm | B8G8R8A8Srgb
  datatype ColorSpace = SrgbNonlinear | ExtendedSrgbLinear
  datatype SurfaceFormat = SurfaceFormat(format: Format, colorSpace: ColorSpace)
  datatype PresentMode = Immediate | Mailbox | Fifo | FifoRelaxed
  datatype SharingMode = Exclusive | Concurrent
  datatype SurfaceTransform = Identity | Rotate90 | Rotate180 | Rotate270
  datatype ShaderStage = VertexStage | FragmentStage
  datatype PipelineStage = ColorAttachmentOutput | TopOfPipe

  /** A `VkSwapchainCreateInfoKHR`, the fields the compositor sets. */
  datatype SwapchainCreateInfo = SwapchainCreateInfo(
    surface: Handle,
    minImageCount: nat,
    imageFormat: Format,
    imageColorSpace: ColorSpace,
    extentWidth: nat,
    extentHeight: nat,
    imageArrayLayers: nat,
    imageUsage: bv32,
    sharingMode: SharingMode,
    queueFamilyIndices: seq<nat>,
    preTransform: SurfaceTransform,
    compositeAlpha: bv32,
    presentMode: PresentMode,
    clipped: bool)

  /** The kinds of object a teardown destroys. */
  datatype ObjectKind =
    | InstanceObject
    | DeviceObject
    | SemaphoreObject
    | FenceObject
    | ShaderModuleObject
    | BufferObject
    | MemoryObject
    | RenderPassObject
    | FramebufferObject
    | PipelineObject
    | PipelineCacheObject
    | PipelineLayoutObject
    | CommandPoolObject
    | ImageViewObject
    | SwapchainObject

  /** The calls of the teardowns: waiting for the device to go idle, freeing command buffers, destroying an object. */
  datatype Teardown =
    | WaitIdle
    | FreeCommandBuffers(commandPool: Handle, commandBuffers: seq<Handle>)
    | Destroy(kind: ObjectKind, handle: Handle)

  /** Whether a chain of steps succeeded, and the calls it made. */
  datatype Outcome<C> = Outcome(ok: bool, calls: seq<C>) {
    /** `this && next`: `next` runs, and its calls are logged, only when `this` succeeded. */
    function Then(next: Outcome<C>): (r: Outcome<C>)
      ensures r.ok == (ok && next.ok)
      ensures !ok ==> r == this
      ensures ok ==> r.calls == calls + next.calls
    {
      if ok then Outcome(next.ok, calls + next.calls) else this
    }
  }

  /** A driver call whose result decides whether the chain goes on. */
  function Step<C>(c: C, result: Result): Outcome<C> {
    Outcome(result == Success, [c])
  }

  /** An opaque step that reports plain success or failure. */
  function Probe<C>(c: C, succeeded: bool): Outcome<C> {
    Outcome(succeeded, [c])
  }

  /** A test made on data already fetched: no call is logged. */
  function Check<C>(condition: bool): Outcome<C> {
    Outcome(condition, [])
  }

  /** Calls that cannot fail (void Vulkan calls). */
  function Emit<C>(cs: seq<C>): Outcome<C> {
    Outcome(true, cs)
  }

  /** The calls of a list of steps laid end to end. */
  function Flatten<C>(steps: seq<Outcome<C>>): seq<C> {
    if |steps| == 0 then [] else steps[0].calls + Flatten(steps[1..])
  }

  /** `s0 && s1 && ... && sn`, the shape of every `Init` of the compositor. */
  function Chain<C>(steps: seq<Outcome<C>>): Outcome<C> {
    if |steps| == 0 then Outcome(true, []) else steps[0].Then(Chain(steps[1..]))
  }

  /** A chain succeeds exactly when every one of its steps succeeds. */
  lemma {:induction false} ChainSucceedsIffAllSteps<C>(steps: seq<Outcome<C>>)
    ensures Chain(steps).ok <==> forall i :: 0 <= i < |steps| ==> steps[i].ok
  {
    if |steps| > 0 {
      ChainSucceedsIffAllSteps(steps[1..]);
      assert forall i :: 1 <= i < |steps| ==> steps[i] == steps[1..][i - 1];
    }
  }

  /** A chain whose steps all succeed makes every step's calls, in order. */
  lemma {:induction false} ChainSuccessCalls<C>(steps: seq<Outcome<C>>)
    requires forall i :: 0 <= i < |steps| ==> steps[i].ok
    ensures Chain(steps) == Outcome(true, Flatten(steps))
  {
    if |steps| > 0 {
      assert forall i :: 0 <= i < |steps[1..]| ==> steps[1..][i] == steps[i + 1];
      ChainSuccessCalls(steps[1..]);
    }
  }

  /**
   * Nothing runs after the first failure: when step k is the first that
   * fails, the chain fails and its calls are those of steps 0..k.
   */
  lemma {:induction false} ChainStopsAtFirstFailure<C>(steps: seq<Outcome<C>>, k: nat)
    requires k < |steps| && !steps[k].ok
    requires forall i :: 0 <= i < k ==> steps[i].ok
    ensures Chain(steps) == Outcome(false, Flatten(steps[..k + 1]))
  {
    if k == 0 {
      assert steps[..1] == [steps[0]];
      assert Flatten([steps[0]]) == steps[0].calls + Flatten([]);
    } else {
      assert forall i :: 0 <= i < k - 1 ==> steps[1..][i] == steps[i + 1];
      ChainStopsAtFirstFailure(steps[1..], k - 1);
      assert steps[..k + 1][1..] == steps[1..][..k];
    }
  }

  /**
   * Running one more step after a chain: it runs only when the chain so far
   * succeeded, and then decides the result and adds its calls.
   */
  lemma {:induction false} ChainSnoc<C>(steps: seq<Outcome<C>>, s: Outcome<C>)
    ensures Chain(steps + [s]) ==
      if Chain(steps).ok then Outcome(s.ok, Chain(steps).calls + s.calls) else Chain(steps)
  {
    if |steps| == 0 {
      assert steps + [s] == [s];
      assert [s][1..] == [];
    } else {
      assert (steps + [s])[1..] == steps[1..] + [s];
      ChainSnoc(steps[1..], s);
    }
  }

  /** `o` made a prefix of the calls `full`, and all of them when it succeeded. */
  predicate PrefixRun<C(==)>(o: Outcome<C>, full: seq<C>) {
    o.calls <= full && (o.ok ==> o.calls == full)
  }

  /** `a && b` runs a prefix of `a`'s calls followed by `b`'s. */
  lemma ThenPrefixRun<C>(a: Outcome<C>, full: seq<C>, b: Outcome<C>, rest: seq<C>)
    requires PrefixRun(a, full) && PrefixRun(b, rest)
    ensures PrefixRun(a.Then(b), full + rest)
  {
    if a.ok {
      assert (full + rest)[..|full|] == full;
    } else {
      assert (full + rest)[..|a.calls|] == full[..|a.calls|];
    }
  }

  /** Appending to a call log is associative. */
  lemma AppendAssoc<C>(x: seq<C>, y: seq<C>, z: seq<C>)
    ensures x + y + z == x + (y + z)
  {
  }

  /** A three-step chain, `a && b && c`. */
  lemma ChainOfThree<C>(a: Outcome<C>, b: Outcome<C>, c: Outcome<C>)
    ensures Chain([a, b, c]) == a.Then(b.Then(c))
  {
    assert [a, b, c][1..] == [b, c] && [b, c][1..] == [c] && [c][1..] == [];
    assert Chain([c]) == c.Then(Chain([])) == c;
    assert Chain([b, c]) == b.Then(Chain([c]));
  }

  /** The first of the first `n` creations of a loop that fails, or `n` when none does. */
  function FirstFailure(replies: seq<Reply<Handle>>, n: nat): (j: nat)
    requires n <= |replies|
    ensures j <= n
    ensures j < n ==> replies[j].result != Success
    ensures forall k :: 0 <= k < j ==> replies[k].result == Success
  {
    if n == 0 then 0
    else
      var j := FirstFailure(replies, n - 1);
      if j < n - 1 then j
      else if replies[n - 1].result != Success then n - 1
      else n
  }

  /** Any first failing creation (or `n`, when none of the first `n` fails) is the search's answer. */
  lemma {:induction false} FirstFailureIsFirst(replies: seq<Reply<Handle>>, n: nat, j: nat)
    requires n <= |replies| && j <= n
    requires j < n ==> replies[j].result != Success
    requires forall k :: 0 <= k < j ==> replies[k].result == Success
    ensures FirstFailure(replies, n) == j
  {
    if n > 0 {
      if j == n {
        FirstFailureIsFirst(replies, n - 1, n - 1);
      } else if j == n - 1 {
        FirstFailureIsFirst(replies, n - 1, n - 1);
      } else {
        FirstFailureIsFirst(replies, n - 1, j);
      }
    }
  }

  /** How many creations a loop over `n` items attempts: up to and including the first failure. */
  function Attempted(replies: seq<Reply<Handle>>, n: nat): (m: nat)
    requires n <= |replies|
    ensures m <= n
    ensures FirstFailure(replies, n) < n ==> m == FirstFailure(replies, n) + 1
    ensures FirstFailure(replies, n) == n ==> m == n
  {
    var j := FirstFailure(replies, n);
    if j < n then j + 1 else n
  }

  /** A destroy call issued only for a valid handle, as every teardown of the compositor does. */
  function Guarded(kind: ObjectKind, h: Handle): (r: seq<Teardown>)
    ensures |r| <= 1
    ensures forall c :: c in r ==> c == Destroy(kind, h) && IsValid(h)
    ensures IsValid(h) ==> r == [Destroy(kind, h)]
  {
    if IsValid(h) then [Destroy(kind, h)] else []
  }

  /** Guarded destroys of every handle of `hs`, in order. */
  function GuardedAll(kind: ObjectKind, hs: seq<Handle>): (r: seq<Teardown>)
    ensures forall c :: c in r ==> c.Destroy? && c.kind == kind && IsValid(c.handle) && c.handle in hs
    ensures |r| <= |hs|
  {
    if |hs| == 0 then [] else GuardedAll(kind, hs[..|hs| - 1]) + Guarded(kind, hs[|hs| - 1])
  }

  /** `GuardedAll` destroys exactly the valid handles, each in its place. */
  lemma {:induction false} GuardedAllDestroysValid(kind: ObjectKind, hs: seq<Handle>, h: Handle)
    ensures Destroy(kind, h) in GuardedAll(kind, hs) <==> IsValid(h) && h in hs
  {
    if |hs| > 0 {
      var init := hs[..|hs| - 1];
      GuardedAllDestroysValid(kind, init, h);
      assert hs == init + [hs[|hs| - 1]];
      assert h in hs <==> h in init || h == hs[|hs| - 1];
    }
  }

  /** One more handle adds its guarded destroy at the end. */
  lemma GuardedAllSnoc(kind: ObjectKind, hs: seq<Handle>, h: Handle)
    ensures GuardedAll(kind, hs + [h]) == GuardedAll(kind, hs) + Guarded(kind, h)
  {
    assert (hs + [h])[..|hs|] == hs;
  }

  /** In `calls`, every occurrence of `a` comes before every occurrence of `b`. */
  predicate Before<C(==)>(calls: seq<C>, a: C, b: C) {
    forall i, j :: 0 <= i < |calls| && 0 <= j < |calls| && calls[i] == a && calls[j] == b ==> i < j
  }

  /** `a` in the front part and `b` only in the back part puts `a` before `b`. */
  lemma BeforeAcross<C>(front: seq<C>, back: seq<C>, a: C, b: C)
    requires a !in back && b !in front
    ensures Before(front + back, a, b)
  {
    var calls := front + back;
    assert forall k :: |front| <= k < |calls| ==> calls[k] == back[k - |front|] && back[k - |front|] in back;
    assert forall k :: 0 <= k < |front| ==> calls[k] == front[k] && front[k] in front;
  }

  /** Appending calls that do not include `a` keeps `a` before `b`. */
  lemma BeforeExtend<C>(calls: seq<C>, more: seq<C>, a: C, b: C)
    requires Before(calls, a, b) && a !in more
    ensures Before(calls + more, a, b)
  {
    var all := calls + more;
    assert forall k :: |calls| <= k < |all| ==> all[k] == more[k - |calls|] && more[k - |calls|] in more;
    assert forall k :: 0 <= k < |calls| ==> all[k] == calls[k];
  }

  /** Prepending calls that do not include `b` keeps `a` before `b`. */
  lemma BeforePrepend<C>(front: seq<C>, calls: seq<C>, a: C, b: C)
    requires Before(calls, a, b) && b !in front
    ensures Before(front + calls, a, b)
  {
    var all := front + calls;
    assert forall k :: 0 <= k < |front| ==> all[k] == front[k] && front[k] in front;
    assert forall k :: |front| <= k < |all| ==> all[k] == calls[k - |front|];
  }
}
