/**
 * sources/Device.cpp: the `Device` object — instance, physical-device choice
 * by a list of preferred GPU types, logical device with one queue.
 */
module Devices {
  import opened Vk

  /** One entry of a `Device`'s call log: a GLFW or Vulkan call and the arguments the model tracks. */
  datatype Call =
    | CheckVulkanSupport
    | CreateInstance
    | EnumeratePhysicalDevices
    | CreateDevice(queueRequests: seq<QueueRequest>, extensionCount: nat)
    | GetQueue(familyIndex: nat, queueIndex: nat)

  /** A family `Device` can use: it has the graphics bit and can present. */
  predicate Suitable(f: QueueFamily) {
    HasGraphics(f) && f.presentSupport
  }

  /** The device and family `FindPhysicalDevice` settles on, if any. */
  datatype Choice = NoChoice | Chosen(device: nat, family: nat)

  /** The lowest suitable family, or the family count when there is none. */
  function FirstSuitable(families: seq<QueueFamily>): (i: nat)
    ensures i <= |families|
    ensures i < |families| ==> Suitable(families[i])
    ensures forall j :: 0 <= j < i ==> !Suitable(families[j])
  {
    if |families| == 0 then 0
    else if Suitable(families[0]) then 0
    else 1 + FirstSuitable(families[1..])
  }

  /** Any first suitable index (or the count, when none is suitable) is the search's answer. */
  lemma {:induction false} FirstSuitableIsFirst(families: seq<QueueFamily>, i: nat)
    requires i <= |families|
    requires i < |families| ==> Suitable(families[i])
    requires forall j :: 0 <= j < i ==> !Suitable(families[j])
    ensures FirstSuitable(families) == i
  {
    if i > 0 {
      assert !Suitable(families[0]);
      FirstSuitableIsFirst(families[1..], i - 1);
    }
  }

  /**
   * What one preferred type yields: only the FIRST device of that type is
   * examined, and it is taken with its lowest suitable family when it has one.
   */
  function ChoiceForType(t: PhysicalDeviceType, devices: seq<PhysicalDevice>): (c: Choice)
    ensures c.Chosen? ==>
      && c.device < |devices|
      && devices[c.device].deviceType == t
      && (forall j :: 0 <= j < c.device ==> devices[j].deviceType != t)
      && c.family < |devices[c.device].queueFamilies|
      && Suitable(devices[c.device].queueFamilies[c.family])
      && (forall j :: 0 <= j < c.family ==> !Suitable(devices[c.device].queueFamilies[j]))
    ensures c.NoChoice? <==>
      (forall d :: 0 <= d < |devices| ==> devices[d].deviceType != t) ||
      (var k := FirstOfType(devices, t);
       k < |devices| && forall i :: 0 <= i < |devices[k].queueFamilies| ==> !Suitable(devices[k].queueFamilies[i]))
  {
    var k := FirstOfType(devices, t);
    if k == |devices| then NoChoice
    else
      var families := devices[k].queueFamilies;
      var i := FirstSuitable(families);
      if i == |families| then NoChoice else Chosen(k, i)
  }

  /** The index of the first preferred type that yields a choice, or the type count when none does. */
  function FirstYielding(types: seq<PhysicalDeviceType>, devices: seq<PhysicalDevice>): (u: nat)
    ensures u <= |types|
    ensures u < |types| ==> ChoiceForType(types[u], devices).Chosen?
    ensures forall v :: 0 <= v < u ==> ChoiceForType(types[v], devices).NoChoice?
  {
    if |types| == 0 then 0
    else if ChoiceForType(types[0], devices).Chosen? then 0
    else 1 + FirstYielding(types[1..], devices)
  }

  /** Any first yielding type index (or the count, when none yields) is the search's answer. */
  lemma {:induction false} FirstYieldingIsFirst(types: seq<PhysicalDeviceType>, devices: seq<PhysicalDevice>, u: nat)
    requires u <= |types|
    requires u < |types| ==> ChoiceForType(types[u], devices).Chosen?
    requires forall v :: 0 <= v < u ==> ChoiceForType(types[v], devices).NoChoice?
    ensures FirstYielding(types, devices) == u
  {
    if u > 0 {
      assert ChoiceForType(types[0], devices).NoChoice?;
      FirstYieldingIsFirst(types[1..], devices, u - 1);
    }
  }

  /** The choice of the first preferred type that yields one, or none. */
  function DeviceChoice(types: seq<PhysicalDeviceType>, devices: seq<PhysicalDevice>): (c: Choice)
    ensures c.NoChoice? <==> forall u :: 0 <= u < |types| ==> ChoiceForType(types[u], devices).NoChoice?
    ensures c.Chosen? ==>
      && c.device < |devices| && c.family < |devices[c.device].queueFamilies|
      && devices[c.device].deviceType in types
      && Suitable(devices[c.device].queueFamilies[c.family])
  {
    var u := FirstYielding(types, devices);
    if u < |types| then ChoiceForType(types[u], devices) else NoChoice
  }

  /**
   * A more preferred type always wins: when the choice has type `types[u]`,
   * every type listed before it yields nothing.
   */
  lemma EarlierTypesYieldNothing(types: seq<PhysicalDeviceType>, devices: seq<PhysicalDevice>)
    ensures var c := DeviceChoice(types, devices);
      c.Chosen? ==> exists u :: 0 <= u < |types| && c == ChoiceForType(types[u], devices) &&
                      forall v :: 0 <= v < u ==> ChoiceForType(types[v], devices).NoChoice?
  {
    var u := FirstYielding(types, devices);
    if u < |types| {
      assert DeviceChoice(types, devices) == ChoiceForType(types[u], devices);
    }
  }

  /**
   * Only the first device of a type is examined: when it has no suitable
   * family, the type yields nothing even if a later device of the same type
   * would have been suitable.
   */
  lemma FirstDeviceOfTypeDecides(t: PhysicalDeviceType, devices: seq<PhysicalDevice>, later: nat)
    requires later < |devices| && devices[later].deviceType == t
    requires exists i :: 0 <= i < |devices[later].queueFamilies| && Suitable(devices[later].queueFamilies[i])
    requires var k := FirstOfType(devices, t);
      k < |devices| && forall i :: 0 <= i < |devices[k].queueFamilies| ==> !Suitable(devices[k].queueFamilies[i])
    ensures ChoiceForType(t, devices) == NoChoice
    ensures FirstOfType(devices, t) < later
  {
    var k := FirstOfType(devices, t);
    var i :| 0 <= i < |devices[later].queueFamilies| && Suitable(devices[later].queueFamilies[i]);
    assert k != later;
    assert FirstSuitable(devices[k].queueFamilies) == |devices[k].queueFamilies|;
  }

  /**
   * The search loops of `FindPhysicalDevice`: for each preferred type in
   * order, find the first device of that type and scan its families for one
   * with graphics and presentation.
   */
  method ChooseDevice(types: seq<PhysicalDeviceType>, devices: seq<PhysicalDevice>) returns (choice: Choice)
    ensures choice == DeviceChoice(types, devices)
  {
    var t := 0;
    while t < |types|
      invariant 0 <= t <= |types|
      invariant forall v :: 0 <= v < t ==> ChoiceForType(types[v], devices).NoChoice?
    {
      var k := FirstOfType(devices, types[t]);
      if k < |devices| {
        var families := devices[k].queueFamilies;
        var i := 0;
        while i < |families|
          invariant 0 <= i <= |families|
          invariant forall j :: 0 <= j < i ==> !Suitable(families[j])
        {
          if HasGraphics(families[i]) && families[i].presentSupport {
            FirstSuitableIsFirst(families, i);
            FirstYieldingIsFirst(types, devices, t);
            return Chosen(k, i);
          }
          i := i + 1;
        }
        FirstSuitableIsFirst(families, |families|);
      }
      t := t + 1;
    }
    FirstYieldingIsFirst(types, devices, |types|);
    return NoChoice;
  }

  /** `Device::Queue`: the queue handle, its index within the family, and the family. */
  datatype Queue = Queue(queue: Handle, index: nat, familyIndex: nat)

  /** `CreateInstance`: GLFW must report Vulkan support before the instance is created. */
  function InstanceOutcome(vulkanSupported: bool, created: Result): (o: Outcome<Call>)
    ensures o.ok <==> vulkanSupported && created == Success
    ensures PrefixRun(o, [CheckVulkanSupport, CreateInstance])
  {
    Probe(CheckVulkanSupport, vulkanSupported).Then(Step(CreateInstance, created))
  }

  /** `FindPhysicalDevice`: the enumeration must succeed and some preferred type must yield a device. */
  function PhysicalDeviceOutcome(types: seq<PhysicalDeviceType>, enumerated: Reply<seq<PhysicalDevice>>): (o: Outcome<Call>)
    ensures o.ok <==> enumerated.result == Success && DeviceChoice(types, enumerated.value).Chosen?
    ensures o.calls == [EnumeratePhysicalDevices]
  {
    Step(EnumeratePhysicalDevices, enumerated.result).Then(Check(DeviceChoice(types, enumerated.value).Chosen?))
  }

  /** `CreateLogicalDevice`: one queue of the chosen family and the swapchain extension, then queue 0. */
  function LogicalDeviceOutcome(familyIndex: nat, created: Result): (o: Outcome<Call>)
    ensures o.ok <==> created == Success
    ensures PrefixRun(o, [CreateDevice([QueueRequest(familyIndex, 1)], 1), GetQueue(familyIndex, 0)])
  {
    Step(CreateDevice([QueueRequest(familyIndex, 1)], 1), created).Then(Emit([GetQueue(familyIndex, 0)]))
  }

  /** What the driver and GLFW answer during `Device::Init`. */
  datatype DeviceReplies = DeviceReplies(
    vulkanSupported: bool,
    instance: Reply<Handle>,
    enumerated: Reply<seq<PhysicalDevice>>,
    device: Reply<Handle>,
    queue: Handle)

  /** The family `CreateLogicalDevice` uses after a successful search. */
  function ChosenFamily(types: seq<PhysicalDeviceType>, r: DeviceReplies): nat {
    var c := DeviceChoice(types, r.enumerated.value);
    if c.Chosen? then c.family else 0
  }

  /** `Init`: the three steps joined by `&&`. */
  function InitSteps(types: seq<PhysicalDeviceType>, r: DeviceReplies): seq<Outcome<Call>> {
    [ InstanceOutcome(r.vulkanSupported, r.instance.result),
      PhysicalDeviceOutcome(types, r.enumerated),
      LogicalDeviceOutcome(ChosenFamily(types, r), r.device.result) ]
  }

  /** The chain of `Init`, written out as nested `&&`. */
  lemma InitChain(types: seq<PhysicalDeviceType>, r: DeviceReplies)
    ensures Chain(InitSteps(types, r)) ==
      InstanceOutcome(r.vulkanSupported, r.instance.result).Then(
        PhysicalDeviceOutcome(types, r.enumerated).Then(
          LogicalDeviceOutcome(ChosenFamily(types, r), r.device.result)))
  {
    var steps := InitSteps(types, r);
    ChainOfThree(steps[0], steps[1], steps[2]);
  }

  /**
   * `Device::Init` succeeds exactly when Vulkan is supported, the instance is
   * created, the enumeration succeeds, some preferred type yields a device
   * with a suitable family, and the logical device is created.
   */
  lemma InitSucceedsIff(types: seq<PhysicalDeviceType>, r: DeviceReplies)
    ensures Chain(InitSteps(types, r)).ok <==>
      && r.vulkanSupported && r.instance.result == Success
      && r.enumerated.result == Success && DeviceChoice(types, r.enumerated.value).Chosen?
      && r.device.result == Success
  {
    var steps := InitSteps(types, r);
    ChainSucceedsIffAllSteps(steps);
    assert steps[0].ok <==> r.vulkanSupported && r.instance.result == Success;
    assert steps[1].ok <==> r.enumerated.result == Success && DeviceChoice(types, r.enumerated.value).Chosen?;
    assert steps[2].ok <==> r.device.result == Success;
  }

  /**
   * On success `Device::Init` makes exactly these calls, in order; a failure
   * before the device search leaves no enumeration in the log, and a failed
   * search creates no device.
   */
  lemma InitCalls(types: seq<PhysicalDeviceType>, r: DeviceReplies)
    ensures var o := Chain(InitSteps(types, r));
      && (o.ok ==> o.calls == [CheckVulkanSupport, CreateInstance, EnumeratePhysicalDevices,
                               CreateDevice([QueueRequest(ChosenFamily(types, r), 1)], 1),
                               GetQueue(ChosenFamily(types, r), 0)])
      && (!r.vulkanSupported ==> o.calls == [CheckVulkanSupport])
      && (r.vulkanSupported && r.instance.result != Success ==> o.calls == [CheckVulkanSupport, CreateInstance])
      && (r.vulkanSupported && r.instance.result == Success && !PhysicalDeviceOutcome(types, r.enumerated).ok ==>
            o.calls == [CheckVulkanSupport, CreateInstance, EnumeratePhysicalDevices])
  {
    var steps := InitSteps(types, r);
    ChainOfThree(steps[0], steps[1], steps[2]);
    assert steps == [steps[0], steps[1], steps[2]];
  }

  class Device {
    /** The GPU types to look for, most preferred first. */
    const gpuTypes: seq<PhysicalDeviceType>
    var status: Result
    var instance: Handle
    var physical: PhysicalDevice
    var logical: Handle
    var queue: Queue
    /** The calls this object has made, oldest first. */
    ghost var trace: seq<Call>
    /** The destroy calls of its teardown, oldest first. */
    ghost var teardown: seq<Teardown>

    /** The default constructor: discrete GPUs only, status "initialization failed". */
    constructor ()
      ensures gpuTypes == [DiscreteGpu] && status == ErrorInitializationFailed
      ensures instance == NullHandle && logical == NullHandle && queue == Queue(NullHandle, 0, 0)
      ensures trace == [] && teardown == []
    {
      gpuTypes := [DiscreteGpu];
      status := ErrorInitializationFailed;
      instance := NullHandle;
      physical := PhysicalDevice(NullHandle, OtherGpu, [], MemoryProperties(0, []));
      logical := NullHandle;
      queue := Queue(NullHandle, 0, 0);
      trace, teardown := [], [];
    }

    /** The constructor taking the preferred GPU types (application and engine names are not modelled). */
    constructor WithTypes(types: seq<PhysicalDeviceType>)
      ensures gpuTypes == types && status == ErrorInitializationFailed
      ensures instance == NullHandle && logical == NullHandle && queue == Queue(NullHandle, 0, 0)
      ensures trace == [] && teardown == []
    {
      gpuTypes := types;
      status := ErrorInitializationFailed;
      instance := NullHandle;
      physical := PhysicalDevice(NullHandle, OtherGpu, [], MemoryProperties(0, []));
      logical := NullHandle;
      queue := Queue(NullHandle, 0, 0);
      trace, teardown := [], [];
    }

    /**
     * CreateInstance: stop when GLFW reports no Vulkan support (status is then
     * left as it was); otherwise create the instance and keep its result.
     */
    method CreateInstance(vulkanSupported: bool, created: Reply<Handle>) returns (ok: bool)
      modifies this
      ensures var o := InstanceOutcome(vulkanSupported, created.result);
        ok == o.ok && trace == old(trace) + o.calls
      ensures status == if vulkanSupported then created.result else old(status)
      ensures instance == if vulkanSupported then created.value else old(instance)
      ensures physical == old(physical) && logical == old(logical) && queue == old(queue)
    {
      trace := trace + [CheckVulkanSupport];
      if !vulkanSupported {
        return false;
      }
      trace := trace + [Call.CreateInstance];
      status, instance := created.result, created.value;
      ok := status == Success;
    }

    /**
     * FindPhysicalDevice: enumerate, then search by preferred type. The status
     * becomes the enumeration's result, and "initialization failed" when the
     * search finds nothing.
     */
    method FindPhysicalDevice(enumerated: Reply<seq<PhysicalDevice>>) returns (ok: bool)
      modifies this
      ensures var o := PhysicalDeviceOutcome(gpuTypes, enumerated);
        ok == o.ok && trace == old(trace) + o.calls
      ensures status == if enumerated.result == Success && !ok then ErrorInitializationFailed else enumerated.result
      ensures var c := DeviceChoice(gpuTypes, enumerated.value);
        && physical == (if ok then enumerated.value[c.device] else old(physical))
        && queue == (if ok then old(queue).(familyIndex := c.family) else old(queue))
      ensures instance == old(instance) && logical == old(logical)
    {
      trace := trace + [EnumeratePhysicalDevices];
      status := enumerated.result;
      if status != Success {
        return false;
      }
      var choice := ChooseDevice(gpuTypes, enumerated.value);
      if choice.Chosen? {
        physical := enumerated.value[choice.device];
        queue := queue.(familyIndex := choice.family);
        return true;
      }
      status := ErrorInitializationFailed;
      return false;
    }

    /** CreateLogicalDevice: one queue of `queue.familyIndex`, then fetch queue 0 of it. */
    method CreateLogicalDevice(created: Reply<Handle>, queueHandle: Handle) returns (ok: bool)
      modifies this
      ensures var o := LogicalDeviceOutcome(old(queue).familyIndex, created.result);
        ok == o.ok && trace == old(trace) + o.calls
      ensures status == created.result && logical == created.value
      ensures queue == if ok then old(queue).(queue := queueHandle) else old(queue)
      ensures instance == old(instance) && physical == old(physical)
    {
      trace := trace + [CreateDevice([QueueRequest(queue.familyIndex, 1)], 1)];
      status, logical := created.result, created.value;
      if status != Success {
        return false;
      }
      trace := trace + [GetQueue(queue.familyIndex, 0)];
      queue := queue.(queue := queueHandle);
      return true;
    }

    /** Init: `CreateInstance() && FindPhysicalDevice() && CreateLogicalDevice()`. */
    method Init(r: DeviceReplies) returns (ok: bool)
      modifies this
      ensures var o := Chain(InitSteps(gpuTypes, r)); ok == o.ok && trace == old(trace) + o.calls
      // Each field holds the reply of the last step that wrote it; a step that did not run leaves it alone.
      ensures var created := r.vulkanSupported && r.instance.result == Success;
        var choice := DeviceChoice(gpuTypes, r.enumerated.value);
        var found := created && r.enumerated.result == Success && choice.Chosen?;
        && instance == (if r.vulkanSupported then r.instance.value else old(instance))
        && physical == (if found then r.enumerated.value[choice.device] else old(physical))
        && logical == (if found then r.device.value else old(logical))
        && queue == (if !found then old(queue)
                     else if r.device.result == Success then Queue(r.queue, old(queue).index, choice.family)
                     else old(queue).(familyIndex := choice.family))
        && status == (if !r.vulkanSupported then old(status)
                      else if r.instance.result != Success then r.instance.result
                      else if r.enumerated.result != Success then r.enumerated.result
                      else if !choice.Chosen? then ErrorInitializationFailed
                      else r.device.result)
      ensures ok ==> && status == Success && instance == r.instance.value && logical == r.device.value
                     && queue == Queue(r.queue, old(queue).index, ChosenFamily(gpuTypes, r))
    {
      InitChain(gpuTypes, r);
      ghost var a := InstanceOutcome(r.vulkanSupported, r.instance.result);
      ghost var b := PhysicalDeviceOutcome(gpuTypes, r.enumerated);
      ghost var c := LogicalDeviceOutcome(ChosenFamily(gpuTypes, r), r.device.result);
      ok := CreateInstance(r.vulkanSupported, r.instance);
      if ok {
        ok := FindPhysicalDevice(r.enumerated);
        if ok {
          ok := CreateLogicalDevice(r.device, r.queue);
          AppendAssoc(old(trace) + a.calls, b.calls, c.calls);
          AppendAssoc(old(trace), a.calls, b.calls + c.calls);
        } else {
          AppendAssoc(old(trace), a.calls, b.calls);
        }
      }
    }

    /** Shutdown: destroy the logical device, then the instance, each only if it exists. */
    method Shutdown()
      modifies this`teardown
      ensures teardown == old(teardown) + Guarded(DeviceObject, logical) + Guarded(InstanceObject, instance)
    {
      teardown := teardown + Guarded(DeviceObject, logical);
      teardown := teardown + Guarded(InstanceObject, instance);
    }
  }

  /** The teardown order of `Device::Shutdown`: the logical device goes before the instance. */
  lemma ShutdownDestroysDeviceFirst(logical: Handle, instance: Handle)
    ensures var calls := Guarded(DeviceObject, logical) + Guarded(InstanceObject, instance);
      && (Destroy(DeviceObject, logical) in calls <==> IsValid(logical))
      && (Destroy(InstanceObject, instance) in calls <==> IsValid(instance))
      && Before(calls, Destroy(DeviceObject, logical), Destroy(InstanceObject, instance))
  {
    BeforeAcross(Guarded(DeviceObject, logical), Guarded(InstanceObject, instance),
                 Destroy(DeviceObject, logical), Destroy(InstanceObject, instance));
  }
}
