/** The application object: the handles it owns, the stages that fill them in
    one after the other, and the release at the end. The driver's answers are
    inputs; the calls issued to it are recorded in a ghost log. */
module Application {
  import opened Vk
  import opened Search
  import opened QueueFamilies
  import opened DeviceSelection
  import opened Layers
  import opened CreateInfos
  import opened Bootstrap

  class HelloTriangleApplication {
    /** The build-time switch for debug layers. */
    const enableValidationLayers: bool

    var instance: Option<nat>
    /** The chosen device, as its position in the driver's enumeration. */
    var physicalDevice: Option<nat>
    var device: Option<nat>
    var graphicsQueue: Option<Queue>

    /** Every driver call issued so far, oldest first. */
    ghost var calls: seq<DriverCall>

    /** All handles start out null. */
    constructor (enableValidationLayers: bool)
      ensures this.enableValidationLayers == enableValidationLayers
      ensures instance == None && physicalDevice == None && device == None && graphicsQueue == None
      ensures calls == []
    {
      this.enableValidationLayers := enableValidationLayers;
      instance := None;
      physicalDevice := None;
      device := None;
      graphicsQueue := None;
      calls := [];
    }

    /** Checks the layers (only with validation on), then requests an instance;
        `result` and `created` are what vkCreateInstance answers. */
    method CreateInstance(platformExtensions: seq<string>, availableLayers: seq<string>,
                          result: VkResult, created: nat)
      returns (r: Outcome)
      modifies this`instance, this`calls
      ensures r == InstanceStageOutcome(enableValidationLayers, availableLayers, result)
      ensures calls == old(calls) + InstanceStageCalls(enableValidationLayers, platformExtensions, availableLayers)
      ensures instance == if r == Pass then Some(created) else old(instance)
    {
      if enableValidationLayers {
        calls := calls + [EnumerateInstanceLayerProperties];
        var supported := CheckValidationLayerSupport(VALIDATION_LAYERS, availableLayers);
        if !supported {
          return Fail(LayerUnavailable);
        }
      }
      var createInfo := InstanceCreateInfoFor(enableValidationLayers, platformExtensions);
      calls := calls + [DriverCall.CreateInstance(createInfo)];
      if result != VK_SUCCESS {
        return Fail(InstanceCreationFailed(result));
      }
      instance := Some(created);
      r := Pass;
    }

    /** Enumerates the devices and records the first suitable one. The final
        null check reads the field, so a device recorded earlier survives a
        failed search. */
    method PickPhysicalDevice(devices: seq<PhysicalDevice>) returns (r: Outcome)
      modifies this`physicalDevice, this`calls
      ensures calls == old(calls) + [EnumeratePhysicalDevices]
      ensures |devices| == 0 ==> r == Fail(NoDevicesFound) && physicalDevice == old(physicalDevice)
      ensures |devices| > 0 && FirstSuitableDevice(devices).Some? ==>
                r == Pass && physicalDevice == FirstSuitableDevice(devices)
      ensures |devices| > 0 && FirstSuitableDevice(devices).None? ==>
                physicalDevice == old(physicalDevice) &&
                r == if old(physicalDevice).None? then Fail(NoSuitableDevice) else Pass
    {
      calls := calls + [EnumeratePhysicalDevices];
      if |devices| == 0 {
        return Fail(NoDevicesFound);
      }
      var k := 0;
      while k < |devices|
        invariant 0 <= k <= |devices|
        invariant forall j :: 0 <= j < k ==> !IsDeviceSuitable(devices[j])
        invariant physicalDevice == old(physicalDevice)
      {
        if IsDeviceSuitable(devices[k]) {
          physicalDevice := Some(k);
          FirstMatchUnique(devices, IsDeviceSuitable, k);
          break;
        }
        k := k + 1;
      }
      if physicalDevice == None {
        return Fail(NoSuitableDevice);
      }
      r := Pass;
    }

    /** Requests a logical device with one graphics queue on the chosen device
        and, once the device exists, fetches queue 0 of that family; `result`
        and `created` are what vkCreateDevice answers. */
    method CreateLogicalDevice(devices: seq<PhysicalDevice>, result: VkResult, created: nat)
      returns (r: Outcome)
      requires physicalDevice.Some? && physicalDevice.value < |devices|
      requires IsDeviceSuitable(devices[physicalDevice.value])
      modifies this`device, this`graphicsQueue, this`calls
      ensures r == if result == VK_SUCCESS then Pass else Fail(DeviceCreationFailed)
      ensures calls == old(calls) + DeviceStageCalls(enableValidationLayers, devices, physicalDevice.value, result, created)
      ensures result == VK_SUCCESS ==>
                device == Some(created) &&
                graphicsQueue == Some(Queue(created, GraphicsFamilyOf(devices[physicalDevice.value]), 0))
      ensures result != VK_SUCCESS ==> device == old(device) && graphicsQueue == old(graphicsQueue)
    {
      var indices := FindQueueFamilies(devices[physicalDevice.value].queueFamilies);
      var family := indices.graphicsFamily.value;
      var createInfo := DeviceCreateInfoFor(enableValidationLayers, family);
      calls := calls + [CreateDevice(physicalDevice.value, createInfo)];
      if result != VK_SUCCESS {
        return Fail(DeviceCreationFailed);
      }
      device := Some(created);
      calls := calls + [GetDeviceQueue(created, family, 0)];
      graphicsQueue := Some(Queue(created, family, 0));
      r := Pass;
    }

    /** Creates the instance, picks a device, creates the logical device,
        stopping at the first stage that fails. */
    method InitVulkan(env: Environment) returns (r: Outcome)
      requires physicalDevice.None?
      modifies this`instance, this`physicalDevice, this`device, this`graphicsQueue, this`calls
      ensures r == InitOutcome(enableValidationLayers, env)
      ensures calls == old(calls) + InitCalls(enableValidationLayers, env)
      ensures instance == if InstanceCreated(enableValidationLayers, env) then Some(env.instanceHandle) else old(instance)
      ensures physicalDevice == if InstanceCreated(enableValidationLayers, env) then FirstSuitableDevice(env.physicalDevices) else None
      ensures r == Pass ==>
                device == Some(env.deviceHandle) &&
                graphicsQueue == Some(Queue(env.deviceHandle, GraphicsFamilyOf(env.physicalDevices[physicalDevice.value]), 0))
      ensures r != Pass ==> device == old(device) && graphicsQueue == old(graphicsQueue)
    {
      InitCallsStages(enableValidationLayers, env);
      ghost var before := calls;
      ghost var instanceCalls := InstanceStageCalls(enableValidationLayers, env.platformExtensions, env.availableLayers);
      r := CreateInstance(env.platformExtensions, env.availableLayers, env.instanceResult, env.instanceHandle);
      if r.Fail? {
        return;
      }
      r := PickPhysicalDevice(env.physicalDevices);
      AppendAssociative(before, instanceCalls, [EnumeratePhysicalDevices]);
      if r.Fail? {
        return;
      }
      ghost var p := physicalDevice.value;
      ghost var deviceCalls := DeviceStageCalls(enableValidationLayers, env.physicalDevices, p, env.deviceResult, env.deviceHandle);
      r := CreateLogicalDevice(env.physicalDevices, env.deviceResult, env.deviceHandle);
      AppendAssociative(before, instanceCalls + [EnumeratePhysicalDevices], deviceCalls);
    }

    /** Releases the device, then the instance. */
    method Cleanup()
      modifies this`calls
      ensures calls == old(calls) + [DestroyDevice(device), DestroyInstance(instance)]
    {
      calls := calls + [DestroyDevice(device)];
      calls := calls + [DestroyInstance(instance)];
    }

    /** Initialisation, then release; a failure skips the release. The window
        and the event loop in between are not modelled. */
    method Run(env: Environment) returns (r: Outcome)
      requires physicalDevice.None?
      modifies this`instance, this`physicalDevice, this`device, this`graphicsQueue, this`calls
      ensures r == InitOutcome(enableValidationLayers, env)
      ensures calls == old(calls) + RunCalls(enableValidationLayers, env)
      ensures instance == if InstanceCreated(enableValidationLayers, env) then Some(env.instanceHandle) else old(instance)
      ensures physicalDevice == if InstanceCreated(enableValidationLayers, env) then FirstSuitableDevice(env.physicalDevices) else None
      ensures r == Pass ==>
                device == Some(env.deviceHandle) &&
                graphicsQueue == Some(Queue(env.deviceHandle, GraphicsFamilyOf(env.physicalDevices[physicalDevice.value]), 0))
      ensures r != Pass ==> device == old(device) && graphicsQueue == old(graphicsQueue)
    {
      r := InitVulkan(env);
      if r.Fail? {
        return;
      }
      Cleanup();
    }
  }

  /** One physical device whose only graphics family is family 1: the
      bootstrap succeeds, picks that device and binds the queue to family 1,
      index 0. */
  method SingleGraphicsFamilyScenario() returns (queue: Option<Queue>, chosen: Option<nat>)
    ensures chosen == Some(0)
    ensures queue == Some(Queue(7, 1, 0))
  {
    var app := new HelloTriangleApplication(true);
    var families := [QueueFamily(QUEUE_TRANSFER_BIT), QueueFamily(QUEUE_GRAPHICS_BIT), QueueFamily(QUEUE_COMPUTE_BIT)];
    assert !SupportsGraphics(families[0]) && SupportsGraphics(families[1]);
    FirstMatchUnique(families, SupportsGraphics, 1);
    var candidate := PhysicalDevice(families);
    FirstMatchUnique([candidate], IsDeviceSuitable, 0);
    var env := Environment(["VK_KHR_surface"], VALIDATION_LAYERS + ["VK_LAYER_other"],
                           [candidate], VK_SUCCESS, 3, VK_SUCCESS, 7);
    assert VALIDATION_LAYERS[0] in env.availableLayers;
    var r := app.InitVulkan(env);
    queue, chosen := app.graphicsQueue, app.physicalDevice;
  }
}
