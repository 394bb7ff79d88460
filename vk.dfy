/** The vocabulary the bootstrap shares with the graphics driver: status codes,
    queue-family capability flags, the fixed layer and extension names, the
    creation requests the application assembles, the errors it raises, and the
    driver calls it issues (recorded in a log by the application class). */
module Vk {

  datatype Option<+T> = None | Some(value: T)

  /** A driver status code (VkResult). Zero is success; errors are negative,
      and positive values are non-error statuses such as VK_INCOMPLETE. */
  type VkResult = int

  const VK_SUCCESS: VkResult := 0

  /** VkQueueFlags is a 32-bit mask. */
  type QueueFlags = bv32

  const QUEUE_GRAPHICS_BIT: QueueFlags := 0x0000_0001
  const QUEUE_COMPUTE_BIT: QueueFlags := 0x0000_0002
  const QUEUE_TRANSFER_BIT: QueueFlags := 0x0000_0004

  /** VkInstanceCreateFlags, of which only the portability bit is used. */
  type InstanceCreateFlags = bv32

  const INSTANCE_CREATE_ENUMERATE_PORTABILITY_BIT: InstanceCreateFlags := 0x0000_0001

  /** One entry of a physical device's queue-family property list. */
  datatype QueueFamily = QueueFamily(queueFlags: QueueFlags)

  predicate SupportsGraphics(family: QueueFamily)
  {
    family.queueFlags & QUEUE_GRAPHICS_BIT != 0
  }

  /** A physical device as the bootstrap sees it: what
      vkGetPhysicalDeviceQueueFamilyProperties reports for it, in index order. */
  datatype PhysicalDevice = PhysicalDevice(queueFamilies: seq<QueueFamily>)

  /** The debug layers the application requests. */
  const VALIDATION_LAYERS: seq<string> := ["VK_LAYER_KHRONOS_validation"]

  const PORTABILITY_ENUMERATION_EXTENSION: string := "VK_KHR_portability_enumeration"

  /** The value of VK_KHR_SWAPCHAIN_EXTENSION_NAME. */
  const SWAPCHAIN_EXTENSION: string := "VK_KHR_swapchain"

  const PORTABILITY_SUBSET_EXTENSION: string := "VK_KHR_portability_subset"

  /** The priority given to the single graphics queue. */
  const GRAPHICS_QUEUE_PRIORITY: real := 1.0

  /** The parts of VkInstanceCreateInfo that have behavioural effect. */
  datatype InstanceCreateInfo = InstanceCreateInfo(
    flags: InstanceCreateFlags,
    enabledLayerNames: seq<string>,
    enabledExtensionNames: seq<string>)

  /** VkDeviceQueueCreateInfo: how many queues of which family, at what priorities. */
  datatype QueueCreateInfo = QueueCreateInfo(
    queueFamilyIndex: nat,
    queueCount: nat,
    queuePriorities: seq<real>)

  /** The parts of VkDeviceCreateInfo that have behavioural effect; the
      feature record is all defaults and is not represented. */
  datatype DeviceCreateInfo = DeviceCreateInfo(
    queueCreateInfos: seq<QueueCreateInfo>,
    enabledExtensionNames: seq<string>,
    enabledLayerNames: seq<string>)

  /** A queue handle is identified by its device, its family and its index
      within the family. */
  datatype Queue = Queue(device: nat, queueFamilyIndex: nat, queueIndex: nat)

  /** The kinds of fatal error the bootstrap throws. */
  datatype Error =
    | LayerUnavailable
    | InstanceCreationFailed(code: VkResult)
    | NoDevicesFound
    | NoSuitableDevice
    | DeviceCreationFailed

  /** A step either completes or throws. */
  datatype Outcome = Pass | Fail(error: Error)

  /** The driver calls the bootstrap issues. The count-then-fill pair of an
      enumeration is one entry. Handles are opaque numbers chosen by the
      driver; `None` stands for VK_NULL_HANDLE. */
  datatype DriverCall =
    | EnumerateInstanceLayerProperties
    | CreateInstance(instanceInfo: InstanceCreateInfo)
    | EnumeratePhysicalDevices
    | CreateDevice(physicalDevice: nat, deviceInfo: DeviceCreateInfo)
    | GetDeviceQueue(device: nat, queueFamilyIndex: nat, queueIndex: nat)
    | DestroyDevice(deviceHandle: Option<nat>)
    | DestroyInstance(instanceHandle: Option<nat>)

  /** The position of each kind of call in the bootstrap's life cycle. */
  function Rank(call: DriverCall): nat
  {
    match call
    case EnumerateInstanceLayerProperties => 0
    case CreateInstance(_) => 1
    case EnumeratePhysicalDevices => 2
    case CreateDevice(_, _) => 3
    case GetDeviceQueue(_, _, _) => 4
    case DestroyDevice(_) => 5
    case DestroyInstance(_) => 6
  }

  /** Every call of the log comes strictly later in the life cycle than the
      calls before it: so no kind of call happens twice, and the kinds happen
      in life-cycle order. */
  predicate StrictlyOrdered(calls: seq<DriverCall>)
  {
    forall i, j :: 0 <= i < j < |calls| ==> Rank(calls[i]) < Rank(calls[j])
  }
}
