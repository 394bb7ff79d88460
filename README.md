# Vulkan bootstrap of the hello-triangle tutorial, in Dafny

This project models the start-up sequence of the hello-triangle Vulkan
application and proves properties about it. The sequence has these parts:

- The validation-layer check runs first, and only when the build-time
  `enableValidationLayers` switch is on.
- The instance request is assembled and submitted.
- The physical devices are enumerated, and the first one that has a
  graphics-capable queue family is chosen.
- A logical device is requested with one graphics queue.
- That queue is fetched.
- At the end of a run, the device is released and then the instance.

The driver is not called. Everything it reports is an input, held in the
`Bootstrap.Environment` datatype:

- the required instance extensions reported by the windowing layer;
- the available layer names;
- each physical device's queue-family list;
- the status and handle returned by instance creation;
- the status and handle returned by device creation.

The application object is the class `Application.HelloTriangleApplication`.
Its fields are the handles the source keeps. A ghost field `calls` records
each driver call the object issues, together with the request it passes.

Modules:

- `Vk`: the vocabulary. It holds status codes, queue flags as `bv32`, the
  layer and extension names, the request records, the errors, and the driver
  calls. `Rank` gives each kind of call its position in the life cycle.
- `Search`: the first-match scan that both the queue-family query and the
  device selection perform.
- `QueueFamilies`: the `QueueFamilyIndices` record and the queue-family query.
- `DeviceSelection`: device suitability and the first-suitable policy.
- `Layers`: the layer availability check.
- `CreateInfos`: how the instance request and the device request are
  assembled.
- `Bootstrap`: the whole initialisation and run as functions of the
  environment. These functions give the error that ends a run and the calls
  it issues. The ordering, halting and request-content lemmas are stated
  over them.
- `Application`: the class. Its methods are proved to follow the `Bootstrap`
  functions.

The model follows the code where the intended design differs from it. The intended design releases every handle on every error path and deduplicates the extension set:

- The instance request always carries the validation layers, even with the
  switch off. Lines 255-256 overwrite the toggled assignment at lines
  237-243. `CreateInfos.ToggleReachesDeviceRequestOnly` shows that the switch
  changes only the device request.
- No handle is released when initialisation fails. The release only runs
  after initialisation has returned normally, so a failure after instance
  creation leaves the instance unreleased. The second clause of
  `Bootstrap.ReleaseOnlyAfterSuccess` states this.
- The instance extensions are the platform list with the
  portability-enumeration name appended. Duplicates are not removed.

## Model

| member | source | states |
|---|---|---|
| QueueFamilies.QueueFamilyIndices.IsComplete | main.cpp:31-36 | The record is complete exactly when the graphics family has been resolved. This is the only capability the application requires. |
| QueueFamilies.FindQueueFamilies | main.cpp:185-211 | The query returns the lowest index of a family with the graphics bit set, or none when no family has it. Its record is complete exactly when some family supports graphics. |
| Search.FirstMatch | main.cpp:196-209 | The scan in index order gives an in-range index whose element qualifies and has no qualifying element before it. It gives none exactly when no element qualifies. |
| Search.FirstMatchUnique | main.cpp:164-169 | A qualifying index with no earlier qualifying index is the one the first-match scan returns. |
| QueueFamilies.LowestGraphicsFamilyWins | main.cpp:197-210 | With graphics-capable families at 0 and 2, the query settles on family 0. The early break keeps the later family from overwriting it. |
| DeviceSelection.IsDeviceSuitable | main.cpp:177-183 | A candidate is suitable exactly when one of its queue families supports graphics. |
| DeviceSelection.GraphicsFamilyOf | main.cpp:103-108 | A suitable candidate's graphics family is in range, supports graphics, and is the lowest family that does. |
| DeviceSelection.FirstSuitableDevice | main.cpp:164-169 | The chosen device is suitable, and no device before it is. None is chosen exactly when no device is suitable. |
| Layers.CheckValidationLayerSupport | main.cpp:266-291 | The check reports support exactly when every requested layer name occurs among the available layers. An empty request is supported. |
| CreateInfos.InstanceExtensions | main.cpp:246-254 | The extension list is the platform list, in its order, with the portability-enumeration name appended. Its length is one more than the platform list. |
| CreateInfos.InstanceExtensionsCoverRequired | main.cpp:249-251 | As a multiset, the extension list is the platform list plus one portability-enumeration name. Every platform name is requested. |
| CreateInfos.InstanceCreateInfoFor | main.cpp:233-256 | The instance request carries the portability-enumeration flag and the extension list. It always carries the validation layers, because lines 255-256 overwrite the toggled assignment. |
| CreateInfos.DeviceCreateInfoFor | main.cpp:105-136 | The device request asks for one queue of the given family, with count 1 and priority 1.0. Its extensions are the swapchain and portability-subset names. It carries the validation layers when the switch is on and no layers when it is off. |
| CreateInfos.ToggleReachesDeviceRequestOnly | main.cpp:130-136 | Flipping the switch leaves the instance request unchanged and changes the device request. |
| Bootstrap.InstanceStageOutcome | main.cpp:219-221 | Defines how instance creation ends: the layer check first, then the creation status. Bootstrap.InstanceStageOutcomeCases states its cases. |
| Bootstrap.InstanceStageOutcomeCases | main.cpp:259-263 | The instance stage passes exactly when the layer check, if it runs, finds every layer and the driver accepts the request. A layer failure is reported exactly when validation is on and a layer is missing. Any other failure carries the driver's status. |
| Bootstrap.InstanceStageCalls | main.cpp:213-264 | Defines the calls of instance creation: the layer query when validation is on, then the request unless a layer is missing. Bootstrap.InstanceStagePositions states their positions. |
| Bootstrap.InstanceStagePositions | main.cpp:218-259 | With validation on, the layer query comes first. The instance request follows exactly when no layer is missing, and it is the request the assembly builds. |
| Bootstrap.DeviceStageCalls | main.cpp:98-144 | Defines the calls of logical-device creation: the request, then the queue fetch when creation succeeded. Bootstrap.DeviceStageShape states their shape. |
| Bootstrap.DeviceStageShape | main.cpp:138-143 | The device stage issues one request for the chosen device, with one queue of its first graphics family. It fetches queue 0 of that same family from the created device exactly when creation succeeded. |
| Bootstrap.InitOutcome | main.cpp:67-74 | Defines how initialisation ends: at the first stage that throws, or with success. Bootstrap.InitOutcomeCases states its cases. |
| Bootstrap.InitOutcomeCases | main.cpp:147-175 | Initialisation succeeds exactly when an instance is created, some device is suitable and the device request is accepted. An instance failure carries a non-success driver code. No suitable device is reported only when devices were enumerated. |
| Bootstrap.InitCalls | main.cpp:67-74 | Defines the driver calls of initialisation: the instance stage, then the enumeration and the device stage, each only if the stage before it passed. Bootstrap.InitCallsPositions and Bootstrap.RunCallsOrdered state its properties. |
| Bootstrap.RunCalls | main.cpp:41-46 | Defines the calls of a run: initialisation, then the device and instance releases only after success. Bootstrap.ReleaseOnlyAfterSuccess states its properties. |
| Bootstrap.RunCallsOrdered | main.cpp:67-96 | In every environment, the calls of initialisation, and of a whole run, come in strict life-cycle order: layer query, instance creation, device enumeration, device creation, queue fetch, device release, instance release. No kind of call occurs twice. |
| Bootstrap.InitCallsPositions | main.cpp:67-74 | Gives the exact position of each call in the initialisation log. Gives the log's exact length for each way initialisation ends. |
| Bootstrap.FailureStopsSequence | main.cpp:67-74 | Initialisation stops at the first stage that throws: the log ends with that stage's call. On success, the log ends with the queue fetch. |
| Bootstrap.LayerCheckPrecedesCreation | main.cpp:219-221 | With validation on, the layer query is the first call. With validation off, no query is made. A missing layer fails with LayerUnavailable before any instance creation is requested. |
| Bootstrap.InstanceFailureCarriesCode | main.cpp:259-263 | A refused instance creation ends initialisation with an error that carries the driver's status code. The creation request is the last call. |
| Bootstrap.QueueFetchedAfterDeviceCreation | main.cpp:139-143 | The queue is fetched only when device creation succeeded, and right after it. The fetch uses the created device, the requested family and queue index 0. |
| Bootstrap.RequestsCarryLayers | main.cpp:130-136 | Every instance request in a log carries the validation layers. Every device request carries layers exactly when the switch is on. |
| Bootstrap.DeviceRequestForFirstSuitable | main.cpp:164-169 | The device request names the first suitable physical device, and asks for one queue of that device's first graphics family. |
| Bootstrap.ReleaseOnlyAfterSuccess | main.cpp:41-46 | A run releases the device and then the instance only after initialisation succeeded. After a failure it releases nothing, even when an instance was created. |
| Application.HelloTriangleApplication.constructor | main.cpp:49-53 | Every handle starts out null, and no call has been issued. |
| Application.HelloTriangleApplication.CreateInstance | main.cpp:213-264 | The layer check comes first when validation is on, then the instance request. The outcome, the calls logged and the new instance handle follow the Bootstrap instance-stage functions. |
| Application.HelloTriangleApplication.PickPhysicalDevice | main.cpp:147-175 | An empty enumeration fails. Otherwise the first suitable device is recorded. When none is suitable, the field is unchanged, and the null check on it decides the outcome. |
| Application.HelloTriangleApplication.CreateLogicalDevice | main.cpp:98-144 | Exactly the device-stage calls are issued. A failed creation throws and leaves the device and the queue unset. On success, the device and queue 0 of the graphics family are stored. |
| Application.HelloTriangleApplication.InitVulkan | main.cpp:67-74 | The three stages run in order and stop at the first failure. The outcome, the call log and each handle some stage set equal the Bootstrap functions of the environment. A handle that no stage set keeps its earlier value. |
| Application.HelloTriangleApplication.Cleanup | main.cpp:85-91 | The device is released, then the instance, using the handles held at that point. |
| Application.HelloTriangleApplication.Run | main.cpp:41-46 | Initialisation, then release. The outcome and the full call log equal the Bootstrap run functions. The handles are those initialisation leaves, because the release changes none of them. |
| Application.SingleGraphicsFamilyScenario | main.cpp:185-211 | For one device whose only graphics family is family 1, the bootstrap picks device 0 and binds queue 0 of family 1 on the created device. |

## Left out

- The window is not modelled: creating it, the event loop, destroying it and terminating the windowing library. It does not influence the Vulkan calls.
- Console output and exception message text are not modelled. The errors are kinds, and the instance-creation failure keeps its status code.
- Real handles are not modelled. Handles are numbers supplied by the environment.
- The driver's behaviour is not modelled. Its answers are inputs.
- The statuses returned by the enumeration calls are ignored by the source and are not modelled.
- Each count-then-fill enumeration pair is logged as one call.
- The queue-family property queries made for each candidate device are not logged.
- The application-info record, the version macros, the structure type tags and the all-default device features are not modelled. They do not affect what the bootstrap decides.
- The queue priority is a real constant 1.0, not a 32-bit float.
- Counts and family indices are unbounded naturals rather than 32-bit unsigned integers. No count in the source comes near the limit.
- Application.HelloTriangleApplication.CreateInstance: on a failed creation, the instance handle is modelled as unchanged. The driver need not leave it untouched.
- Application.HelloTriangleApplication.CreateLogicalDevice: on a failed creation, the device handle is modelled as unchanged, for the same reason.
- Layers.CheckValidationLayerSupport: takes the requested list as a parameter, where the source reads its constant. That is how the empty request can be stated. The bootstrap always passes the constant.
- Application.HelloTriangleApplication.InitVulkan: requires that no physical device has been recorded yet, as on the single call made from the run method. The outcome after a failed search depends on the field's earlier value, and PickPhysicalDevice states that case.
