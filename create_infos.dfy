/** Assembly of the two creation requests: the instance request and the
    logical-device request. */
module CreateInfos {
  import opened Vk

  /** The instance extensions: the platform-mandated list, in its order,
      followed by the portability-enumeration extension. */
  function InstanceExtensions(platformExtensions: seq<string>): (extensions: seq<string>)
    ensures |extensions| == |platformExtensions| + 1
    ensures extensions[..|platformExtensions|] == platformExtensions
    ensures extensions[|platformExtensions|] == PORTABILITY_ENUMERATION_EXTENSION
  {
    platformExtensions + [PORTABILITY_ENUMERATION_EXTENSION]
  }

  /** Whatever order the platform list comes in, the extension request holds
      each platform name as often as the platform list does, and the
      portability-enumeration name exactly once more. */
  lemma InstanceExtensionsCoverRequired(platformExtensions: seq<string>)
    ensures multiset(InstanceExtensions(platformExtensions))
         == multiset(platformExtensions) + multiset{PORTABILITY_ENUMERATION_EXTENSION}
    ensures forall e :: e in platformExtensions ==> e in InstanceExtensions(platformExtensions)
    ensures PORTABILITY_ENUMERATION_EXTENSION in InstanceExtensions(platformExtensions)
  {
    var extensions := InstanceExtensions(platformExtensions);
    assert extensions == platformExtensions + [PORTABILITY_ENUMERATION_EXTENSION];
    assert extensions[|platformExtensions|] in extensions;
  }

  /** The instance request, assembled field by field. The layer list is first
      set according to the toggle and later overwritten with the validation
      layers, so the request always carries them. */
  function InstanceCreateInfoFor(enableValidationLayers: bool, platformExtensions: seq<string>): (info: InstanceCreateInfo)
    ensures info.flags == INSTANCE_CREATE_ENUMERATE_PORTABILITY_BIT
    ensures info.enabledExtensionNames == InstanceExtensions(platformExtensions)
    ensures info.enabledLayerNames == VALIDATION_LAYERS
  {
    var info := InstanceCreateInfo(INSTANCE_CREATE_ENUMERATE_PORTABILITY_BIT, [], []);
    var info := info.(enabledLayerNames := if enableValidationLayers then VALIDATION_LAYERS else []);
    var info := info.(enabledExtensionNames := InstanceExtensions(platformExtensions));
    info.(enabledLayerNames := VALIDATION_LAYERS)
  }

  /** The device-level extensions every logical device is created with. */
  const DEVICE_EXTENSIONS: seq<string> := [SWAPCHAIN_EXTENSION, PORTABILITY_SUBSET_EXTENSION]

  /** The logical-device request: one queue of the graphics family at full
      priority, the fixed device extensions, and the validation layers only
      when the toggle is on. */
  function DeviceCreateInfoFor(enableValidationLayers: bool, graphicsFamily: nat): (info: DeviceCreateInfo)
    ensures |info.queueCreateInfos| == 1
    ensures info.queueCreateInfos[0].queueFamilyIndex == graphicsFamily
    ensures info.queueCreateInfos[0].queueCount == 1
    ensures info.queueCreateInfos[0].queuePriorities == [GRAPHICS_QUEUE_PRIORITY]
    ensures info.enabledExtensionNames == [SWAPCHAIN_EXTENSION, PORTABILITY_SUBSET_EXTENSION]
    ensures enableValidationLayers ==> info.enabledLayerNames == VALIDATION_LAYERS
    ensures info.enabledLayerNames != [] <==> enableValidationLayers
  {
    var queueCreateInfo := QueueCreateInfo(graphicsFamily, 1, [GRAPHICS_QUEUE_PRIORITY]);
    var info := DeviceCreateInfo([queueCreateInfo], DEVICE_EXTENSIONS, []);
    if enableValidationLayers then info.(enabledLayerNames := VALIDATION_LAYERS)
    else info.(enabledLayerNames := [])
  }

  /** The toggle changes the device request and leaves the instance request
      as it is. */
  lemma ToggleReachesDeviceRequestOnly(platformExtensions: seq<string>, graphicsFamily: nat)
    ensures InstanceCreateInfoFor(true, platformExtensions) == InstanceCreateInfoFor(false, platformExtensions)
    ensures DeviceCreateInfoFor(true, graphicsFamily) != DeviceCreateInfoFor(false, graphicsFamily)
  {
  }
}
