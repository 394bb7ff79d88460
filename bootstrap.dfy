/** What the whole bootstrap does, as a function of the driver's answers:
    which error (if any) ends it, and which driver calls it issues on the way.
    The application class is proved to follow these functions; the lemmas
    below state the ordering and halting properties of the sequence. */
module Bootstrap {
  import opened Vk
  import opened Search
  import opened DeviceSelection
  import opened Layers
  import opened CreateInfos

  /** Everything the driver and the windowing layer report to the bootstrap. */
  datatype Environment = Environment(
    platformExtensions: seq<string>,     // glfwGetRequiredInstanceExtensions
    availableLayers: seq<string>,        // vkEnumerateInstanceLayerProperties
    physicalDevices: seq<PhysicalDevice>, // vkEnumeratePhysicalDevices
    instanceResult: VkResult,            // status of vkCreateInstance
    instanceHandle: nat,                 // the instance it writes on success
    deviceResult: VkResult,              // status of vkCreateDevice
    deviceHandle: nat)                   // the device it writes on success

  /** The fast-fail check rejects the configuration before instance creation. */
  predicate LayerCheckFails(enableValidationLayers: bool, env: Environment)
  {
    enableValidationLayers && !AllLayersAvailable(VALIDATION_LAYERS, env.availableLayers)
  }

  /** An instance exists once instance creation returns. */
  predicate InstanceCreated(enableValidationLayers: bool, env: Environment)
  {
    !LayerCheckFails(enableValidationLayers, env) && env.instanceResult == VK_SUCCESS
  }

  /** How instance creation ends: the layer check, then the creation status. */
  function InstanceStageOutcome(enableValidationLayers: bool, availableLayers: seq<string>, result: VkResult): Outcome
  {
    if enableValidationLayers && !AllLayersAvailable(VALIDATION_LAYERS, availableLayers) then Fail(LayerUnavailable)
    else if result != VK_SUCCESS then Fail(InstanceCreationFailed(result))
    else Pass
  }

  /** The calls instance creation issues: the layer query when validation is
      on, then the creation request unless the query found a layer missing. */
  function InstanceStageCalls(enableValidationLayers: bool, platformExtensions: seq<string>,
                              availableLayers: seq<string>): seq<DriverCall>
  {
    (if enableValidationLayers then [EnumerateInstanceLayerProperties] else []) +
    if enableValidationLayers && !AllLayersAvailable(VALIDATION_LAYERS, availableLayers) then []
    else [CreateInstance(InstanceCreateInfoFor(enableValidationLayers, platformExtensions))]
  }

  /** The calls logical-device creation issues for the chosen device `p`: the
      creation request, then the queue fetch when the device was created. */
  function DeviceStageCalls(enableValidationLayers: bool, devices: seq<PhysicalDevice>, p: nat,
                            result: VkResult, created: nat): seq<DriverCall>
    requires p < |devices| && IsDeviceSuitable(devices[p])
  {
    var family := GraphicsFamilyOf(devices[p]);
    [CreateDevice(p, DeviceCreateInfoFor(enableValidationLayers, family))] +
    if result == VK_SUCCESS then [GetDeviceQueue(created, family, 0)] else []
  }

  /** How initialisation ends: at the first stage that throws, or with success. */
  function InitOutcome(enableValidationLayers: bool, env: Environment): Outcome
  {
    var instanceOutcome := InstanceStageOutcome(enableValidationLayers, env.availableLayers, env.instanceResult);
    if instanceOutcome.Fail? then instanceOutcome
    else if |env.physicalDevices| == 0 then Fail(NoDevicesFound)
    else if FirstSuitableDevice(env.physicalDevices).None? then Fail(NoSuitableDevice)
    else if env.deviceResult != VK_SUCCESS then Fail(DeviceCreationFailed)
    else Pass
  }

  /** The driver calls initialisation issues, in order. */
  function InitCalls(enableValidationLayers: bool, env: Environment): seq<DriverCall>
  {
    InstanceStageCalls(enableValidationLayers, env.platformExtensions, env.availableLayers) +
    if InstanceStageOutcome(enableValidationLayers, env.availableLayers, env.instanceResult).Fail? then []
    else
      [EnumeratePhysicalDevices] +
      match FirstSuitableDevice(env.physicalDevices)
      case None => []
      case Some(p) => DeviceStageCalls(enableValidationLayers, env.physicalDevices, p, env.deviceResult, env.deviceHandle)
  }

  /** The instance stage passes exactly when the layer check (if it runs)
      finds every layer and the driver accepts the request; the layer check
      is decided first, so a refused request only surfaces after it. */
  lemma InstanceStageOutcomeCases(enableValidationLayers: bool, availableLayers: seq<string>, result: VkResult)
    ensures var r := InstanceStageOutcome(enableValidationLayers, availableLayers, result);
            (r == Pass <==> (!enableValidationLayers || AllLayersAvailable(VALIDATION_LAYERS, availableLayers)) && result == VK_SUCCESS) &&
            (r == Fail(LayerUnavailable) <==> enableValidationLayers && !AllLayersAvailable(VALIDATION_LAYERS, availableLayers)) &&
            (r.Fail? ==> r.error == LayerUnavailable || r.error == InstanceCreationFailed(result))
  {
  }

  /** The instance stage's log: the query (with validation on) at 0, then
      the request unless the query found a layer missing. */
  lemma InstanceStagePositions(enableValidationLayers: bool, platformExtensions: seq<string>, availableLayers: seq<string>)
    ensures var calls := InstanceStageCalls(enableValidationLayers, platformExtensions, availableLayers);
            var k := if enableValidationLayers then 1 else 0;
            var fails := enableValidationLayers && !AllLayersAvailable(VALIDATION_LAYERS, availableLayers);
            |calls| == (if fails then k else k + 1) &&
            (enableValidationLayers ==> calls[0] == EnumerateInstanceLayerProperties) &&
            (!fails ==> calls[k] == CreateInstance(InstanceCreateInfoFor(enableValidationLayers, platformExtensions)))
  {
  }

  /** The device stage requests one queue of the chosen device's first
      graphics family, and fetches queue 0 of that same family from the
      created device exactly when creation succeeded. */
  lemma DeviceStageShape(enableValidationLayers: bool, devices: seq<PhysicalDevice>, p: nat,
                         result: VkResult, created: nat)
    requires p < |devices| && IsDeviceSuitable(devices[p])
    ensures var calls := DeviceStageCalls(enableValidationLayers, devices, p, result, created);
            (|calls| == if result == VK_SUCCESS then 2 else 1) &&
            calls[0].CreateDevice? && calls[0].physicalDevice == p &&
            calls[0].deviceInfo.queueCreateInfos == [QueueCreateInfo(GraphicsFamilyOf(devices[p]), 1, [GRAPHICS_QUEUE_PRIORITY])] &&
            (result == VK_SUCCESS ==>
               calls[1] == GetDeviceQueue(created, calls[0].deviceInfo.queueCreateInfos[0].queueFamilyIndex, 0))
  {
  }

  /** Initialisation succeeds exactly when an instance is created, some
      device is suitable and the device request is accepted; an instance
      failure carries the driver's code, and "no suitable device" is only
      reported when devices were enumerated. */
  lemma InitOutcomeCases(enableValidationLayers: bool, env: Environment)
    ensures var r := InitOutcome(enableValidationLayers, env);
            (r == Pass <==>
               InstanceCreated(enableValidationLayers, env) &&
               FirstSuitableDevice(env.physicalDevices).Some? && env.deviceResult == VK_SUCCESS) &&
            (r.Fail? && r.error.InstanceCreationFailed? ==> r.error.code == env.instanceResult != VK_SUCCESS) &&
            (r == Fail(NoSuitableDevice) ==> |env.physicalDevices| > 0)
  {
  }

  /** InitCalls split at the stage boundaries. */
  lemma InitCallsStages(enableValidationLayers: bool, env: Environment)
    ensures var instanceCalls := InstanceStageCalls(enableValidationLayers, env.platformExtensions, env.availableLayers);
            var calls := InitCalls(enableValidationLayers, env);
            if InstanceStageOutcome(enableValidationLayers, env.availableLayers, env.instanceResult).Fail? then
              calls == instanceCalls
            else match FirstSuitableDevice(env.physicalDevices)
              case None => calls == instanceCalls + [EnumeratePhysicalDevices]
              case Some(p) =>
                calls == instanceCalls + [EnumeratePhysicalDevices]
                         + DeviceStageCalls(enableValidationLayers, env.physicalDevices, p, env.deviceResult, env.deviceHandle)
  {
  }

  lemma AppendAssociative(a: seq<DriverCall>, b: seq<DriverCall>, c: seq<DriverCall>)
    ensures a + (b + c) == a + b + c
  {
  }

  /** The driver calls of a whole run: initialisation, then (only when it
      succeeded) the release of the device and the instance. */
  function RunCalls(enableValidationLayers: bool, env: Environment): seq<DriverCall>
  {
    InitCalls(enableValidationLayers, env) +
    if InitOutcome(enableValidationLayers, env) == Pass
    then [DestroyDevice(Some(env.deviceHandle)), DestroyInstance(Some(env.instanceHandle))]
    else []
  }

  /** The last life-cycle stage a failure of each kind reaches. */
  function FailureRank(e: Error): nat
  {
    match e
    case LayerUnavailable => 0
    case InstanceCreationFailed(_) => 1
    case NoDevicesFound => 2
    case NoSuitableDevice => 2
    case DeviceCreationFailed => 3
  }

  /** Every call of the log has a rank in [lo, hi). */
  predicate RanksWithin(calls: seq<DriverCall>, lo: nat, hi: nat)
  {
    forall i :: 0 <= i < |calls| ==> lo <= Rank(calls[i]) < hi
  }

  lemma OrderedAppend(a: seq<DriverCall>, b: seq<DriverCall>, lo: nat, mid: nat, hi: nat)
    requires lo <= mid <= hi
    requires StrictlyOrdered(a) && RanksWithin(a, lo, mid)
    requires StrictlyOrdered(b) && RanksWithin(b, mid, hi)
    ensures StrictlyOrdered(a + b) && RanksWithin(a + b, lo, hi)
  {
    var ab := a + b;
    forall i, j | 0 <= i < j < |ab|
      ensures Rank(ab[i]) < Rank(ab[j])
    {
      if j < |a| {
        assert ab[i] == a[i] && ab[j] == a[j];
      } else if i >= |a| {
        assert ab[i] == b[i - |a|] && ab[j] == b[j - |a|];
      } else {
        assert ab[i] == a[i] && ab[j] == b[j - |a|];
      }
    }
    forall i | 0 <= i < |ab|
      ensures lo <= Rank(ab[i]) < hi
    {
      if i < |a| {
        assert ab[i] == a[i];
      } else {
        assert ab[i] == b[i - |a|];
      }
    }
  }

  lemma InstanceStageOrdered(enableValidationLayers: bool, platformExtensions: seq<string>, availableLayers: seq<string>)
    ensures var calls := InstanceStageCalls(enableValidationLayers, platformExtensions, availableLayers);
            StrictlyOrdered(calls) && RanksWithin(calls, 0, 2)
  {
  }

  lemma DeviceStageOrdered(enableValidationLayers: bool, devices: seq<PhysicalDevice>, p: nat,
                           result: VkResult, created: nat)
    requires p < |devices| && IsDeviceSuitable(devices[p])
    ensures var calls := DeviceStageCalls(enableValidationLayers, devices, p, result, created);
            StrictlyOrdered(calls) && RanksWithin(calls, 3, 5)
  {
  }

  /** The calls of a run happen in life-cycle order, each kind at most once:
      the layer query before instance creation, instance before device
      selection, selection before device creation, device creation before the
      queue fetch, and the device released before the instance. */
  lemma {:induction false} RunCallsOrdered(enableValidationLayers: bool, env: Environment)
    ensures StrictlyOrdered(InitCalls(enableValidationLayers, env))
    ensures StrictlyOrdered(RunCalls(enableValidationLayers, env))
  {
    var enable := enableValidationLayers;
    var instanceCalls := InstanceStageCalls(enable, env.platformExtensions, env.availableLayers);
    InstanceStageOrdered(enable, env.platformExtensions, env.availableLayers);
    var selectionCalls: seq<DriverCall> := [];
    if InstanceStageOutcome(enable, env.availableLayers, env.instanceResult).Pass? {
      var deviceCalls: seq<DriverCall> := [];
      if FirstSuitableDevice(env.physicalDevices).Some? {
        var p := FirstSuitableDevice(env.physicalDevices).value;
        deviceCalls := DeviceStageCalls(enable, env.physicalDevices, p, env.deviceResult, env.deviceHandle);
        DeviceStageOrdered(enable, env.physicalDevices, p, env.deviceResult, env.deviceHandle);
      }
      OrderedAppend([EnumeratePhysicalDevices], deviceCalls, 2, 3, 5);
      selectionCalls := [EnumeratePhysicalDevices] + deviceCalls;
    }
    OrderedAppend(instanceCalls, selectionCalls, 0, 2, 5);
    var init := instanceCalls + selectionCalls;
    assert init == InitCalls(enable, env);
    var destroyBoth := [DestroyDevice(Some(env.deviceHandle)), DestroyInstance(Some(env.instanceHandle))];
    assert StrictlyOrdered(destroyBoth) && RanksWithin(destroyBoth, 5, 7);
    assert StrictlyOrdered(init) && RanksWithin(init, 0, 5);
    OrderedAppend(init, destroyBoth, 0, 5, 7);
    assert RunCalls(enable, env) == if InitOutcome(enable, env) == Pass then init + destroyBoth else init;
  }

  /** Where each call stands in the initialisation log, and how long the log
      is for each way initialisation can end. `k` is 1 when the layer query
      comes first and 0 otherwise. */
  lemma InitCallsPositions(enableValidationLayers: bool, env: Environment)
    ensures var calls := InitCalls(enableValidationLayers, env);
            var k := if enableValidationLayers then 1 else 0;
            (|calls| == k + match InitOutcome(enableValidationLayers, env)
                             case Fail(e) => FailureRank(e)
                             case Pass => 4) &&
            (enableValidationLayers ==> calls[0] == EnumerateInstanceLayerProperties) &&
            (!LayerCheckFails(enableValidationLayers, env) ==>
               calls[k] == CreateInstance(InstanceCreateInfoFor(enableValidationLayers, env.platformExtensions))) &&
            (InstanceCreated(enableValidationLayers, env) ==> calls[k + 1] == EnumeratePhysicalDevices) &&
            (InstanceCreated(enableValidationLayers, env) && FirstSuitableDevice(env.physicalDevices).Some? ==>
               var p := FirstSuitableDevice(env.physicalDevices).value;
               var family := GraphicsFamilyOf(env.physicalDevices[p]);
               calls[k + 2] == CreateDevice(p, DeviceCreateInfoFor(enableValidationLayers, family)) &&
               (env.deviceResult == VK_SUCCESS ==> calls[k + 3] == GetDeviceQueue(env.deviceHandle, family, 0)))
  {
    var enable := enableValidationLayers;
    InitCallsStages(enable, env);
    InstanceStagePositions(enable, env.platformExtensions, env.availableLayers);
    var instanceCalls := InstanceStageCalls(enable, env.platformExtensions, env.availableLayers);
    var calls := InitCalls(enable, env);
    var k := if enable then 1 else 0;
    if enable {
      assert calls[0] == instanceCalls[0];
    }
    if !LayerCheckFails(enable, env) {
      assert calls[k] == instanceCalls[k];
    }
    if InstanceCreated(enable, env) {
      var selected := FirstSuitableDevice(env.physicalDevices);
      if selected.Some? {
        var deviceCalls := DeviceStageCalls(enable, env.physicalDevices, selected.value, env.deviceResult, env.deviceHandle);
        assert calls == instanceCalls + [EnumeratePhysicalDevices] + deviceCalls;
        assert calls[k + 2] == deviceCalls[0];
        if env.deviceResult == VK_SUCCESS {
          assert calls[k + 3] == deviceCalls[1];
        }
      }
    }
  }

  /** Initialisation stops at the first failing stage: the log ends with that
      stage's call, and (the log being ordered) nothing of a later stage was
      issued. On success the log ends with the queue fetch. */
  lemma FailureStopsSequence(enableValidationLayers: bool, env: Environment)
    ensures var calls := InitCalls(enableValidationLayers, env);
            calls != [] &&
            match InitOutcome(enableValidationLayers, env)
            case Fail(e) => Rank(calls[|calls| - 1]) == FailureRank(e)
            case Pass => calls[|calls| - 1].GetDeviceQueue?
  {
    InitCallsPositions(enableValidationLayers, env);
  }

  /** With validation on, the layer query is the first call; when it finds a
      layer missing, initialisation fails with LayerUnavailable and no instance
      creation is ever requested. With validation off there is no query. */
  lemma LayerCheckPrecedesCreation(enableValidationLayers: bool, env: Environment)
    ensures var calls := InitCalls(enableValidationLayers, env);
            (enableValidationLayers ==> calls != [] && calls[0] == EnumerateInstanceLayerProperties) &&
            (!enableValidationLayers ==> forall i :: 0 <= i < |calls| ==> !calls[i].EnumerateInstanceLayerProperties?)
    ensures LayerCheckFails(enableValidationLayers, env) ==>
              InitOutcome(enableValidationLayers, env) == Fail(LayerUnavailable) &&
              forall i :: 0 <= i < |InitCalls(enableValidationLayers, env)| ==> !InitCalls(enableValidationLayers, env)[i].CreateInstance?
  {
    InitCallsPositions(enableValidationLayers, env);
    RunCallsOrdered(enableValidationLayers, env);
    var calls := InitCalls(enableValidationLayers, env);
    if !enableValidationLayers && |calls| > 0 {
      assert Rank(calls[0]) == 1;
      forall i | 0 < i < |calls| ensures Rank(calls[i]) > 0 {
        assert Rank(calls[0]) < Rank(calls[i]);
      }
    }
  }

  /** A refused instance creation ends initialisation with its status code. */
  lemma InstanceFailureCarriesCode(enableValidationLayers: bool, env: Environment)
    requires !LayerCheckFails(enableValidationLayers, env)
    requires env.instanceResult != VK_SUCCESS
    ensures InitOutcome(enableValidationLayers, env) == Fail(InstanceCreationFailed(env.instanceResult))
    ensures var calls := InitCalls(enableValidationLayers, env);
            calls != [] && calls[|calls| - 1] == CreateInstance(InstanceCreateInfoFor(enableValidationLayers, env.platformExtensions))
  {
    InitCallsPositions(enableValidationLayers, env);
  }

  /** In an ordered log, two calls of the same kind are the same call. */
  lemma SameRankSamePosition(calls: seq<DriverCall>, i: nat, j: nat)
    requires StrictlyOrdered(calls)
    requires i < |calls| && j < |calls| && Rank(calls[i]) == Rank(calls[j])
    ensures i == j
  {
  }

  /** The queue is fetched only when initialisation succeeds, right after
      the device creation, from that device's single requested family at
      queue index 0. */
  lemma QueueFetchedAfterDeviceCreation(enableValidationLayers: bool, env: Environment)
    ensures var calls := InitCalls(enableValidationLayers, env);
            forall i :: 0 <= i < |calls| && calls[i].GetDeviceQueue? ==>
              env.deviceResult == VK_SUCCESS && InitOutcome(enableValidationLayers, env) == Pass &&
              i > 0 && calls[i - 1].CreateDevice? &&
              calls[i].device == env.deviceHandle &&
              calls[i].queueFamilyIndex == calls[i - 1].deviceInfo.queueCreateInfos[0].queueFamilyIndex &&
              calls[i].queueIndex == 0
  {
    var calls := InitCalls(enableValidationLayers, env);
    InitCallsPositions(enableValidationLayers, env);
    RunCallsOrdered(enableValidationLayers, env);
    var k := if enableValidationLayers then 1 else 0;
    forall i | 0 <= i < |calls| && calls[i].GetDeviceQueue?
      ensures InitOutcome(enableValidationLayers, env) == Pass && i == k + 3
    {
      if InitOutcome(enableValidationLayers, env) == Pass {
        SameRankSamePosition(calls, i, k + 3);
      }
    }
  }

  /** Every instance request carries the validation layers, whatever the
      toggle; every device request carries them exactly when it is on. */
  lemma RequestsCarryLayers(enableValidationLayers: bool, env: Environment)
    ensures var calls := InitCalls(enableValidationLayers, env);
            forall i :: 0 <= i < |calls| ==>
              (calls[i].CreateInstance? ==> calls[i].instanceInfo.enabledLayerNames == VALIDATION_LAYERS) &&
              (calls[i].CreateDevice? ==> (calls[i].deviceInfo.enabledLayerNames != [] <==> enableValidationLayers))
  {
    var calls := InitCalls(enableValidationLayers, env);
    InitCallsPositions(enableValidationLayers, env);
    RunCallsOrdered(enableValidationLayers, env);
    var k := if enableValidationLayers then 1 else 0;
    forall i | 0 <= i < |calls| && (calls[i].CreateInstance? || calls[i].CreateDevice?)
      ensures calls[i].CreateInstance? ==> i == k && !LayerCheckFails(enableValidationLayers, env)
      ensures calls[i].CreateDevice? ==> i == k + 2 && InstanceCreated(enableValidationLayers, env) &&
                                         FirstSuitableDevice(env.physicalDevices).Some?
    {
      RankPinsPosition(enableValidationLayers, env, i);
    }
  }

  /** A call's kind fixes its position in the initialisation log. */
  lemma RankPinsPosition(enableValidationLayers: bool, env: Environment, i: nat)
    requires i < |InitCalls(enableValidationLayers, env)|
    ensures var calls := InitCalls(enableValidationLayers, env);
            var k := if enableValidationLayers then 1 else 0;
            (calls[i].CreateInstance? ==> i == k && !LayerCheckFails(enableValidationLayers, env)) &&
            (calls[i].CreateDevice? ==> i == k + 2 && InstanceCreated(enableValidationLayers, env) &&
                                        FirstSuitableDevice(env.physicalDevices).Some?)
  {
    var calls := InitCalls(enableValidationLayers, env);
    InitCallsPositions(enableValidationLayers, env);
    RunCallsOrdered(enableValidationLayers, env);
    var k := if enableValidationLayers then 1 else 0;
    var last := |calls| - 1;
    assert Rank(calls[i]) <= Rank(calls[last]);
    if calls[i].CreateInstance? {
      assert !LayerCheckFails(enableValidationLayers, env);
      SameRankSamePosition(calls, i, k);
    }
    if calls[i].CreateDevice? {
      assert InstanceCreated(enableValidationLayers, env) && FirstSuitableDevice(env.physicalDevices).Some?;
      SameRankSamePosition(calls, i, k + 2);
    }
  }

  /** The device picked is the first suitable one, and the device request
      names its first graphics family. */
  lemma DeviceRequestForFirstSuitable(enableValidationLayers: bool, env: Environment)
    ensures var calls := InitCalls(enableValidationLayers, env);
            forall i :: 0 <= i < |calls| && calls[i].CreateDevice? ==>
              var p := calls[i].physicalDevice;
              p < |env.physicalDevices| &&
              IsDeviceSuitable(env.physicalDevices[p]) &&
              (forall j :: 0 <= j < p ==> !IsDeviceSuitable(env.physicalDevices[j])) &&
              calls[i].deviceInfo.queueCreateInfos
                == [QueueCreateInfo(GraphicsFamilyOf(env.physicalDevices[p]), 1, [GRAPHICS_QUEUE_PRIORITY])]
  {
    var calls := InitCalls(enableValidationLayers, env);
    InitCallsPositions(enableValidationLayers, env);
    forall i | 0 <= i < |calls| && calls[i].CreateDevice?
      ensures calls[i].physicalDevice == FirstSuitableDevice(env.physicalDevices).value
    {
      RankPinsPosition(enableValidationLayers, env, i);
    }
  }

  /** A run releases exactly the device and then the instance when
      initialisation succeeded, and releases nothing when it failed, even
      if an instance had been created. */
  lemma ReleaseOnlyAfterSuccess(enableValidationLayers: bool, env: Environment)
    ensures var run := RunCalls(enableValidationLayers, env);
            var init := InitCalls(enableValidationLayers, env);
            if InitOutcome(enableValidationLayers, env) == Pass
            then run == init + [DestroyDevice(Some(env.deviceHandle)), DestroyInstance(Some(env.instanceHandle))]
            else run == init && forall i :: 0 <= i < |run| ==> Rank(run[i]) < 5
    ensures InstanceCreated(enableValidationLayers, env) && InitOutcome(enableValidationLayers, env) != Pass ==>
              var run := RunCalls(enableValidationLayers, env);
              (exists i :: 0 <= i < |run| && run[i].CreateInstance?) &&
              forall i :: 0 <= i < |run| ==> !run[i].DestroyInstance?
  {
    InitCallsPositions(enableValidationLayers, env);
    RunCallsOrdered(enableValidationLayers, env);
    var init := InitCalls(enableValidationLayers, env);
    if InitOutcome(enableValidationLayers, env) != Pass {
      var last := |init| - 1;
      forall i | 0 <= i < |init| ensures Rank(init[i]) < 5 {
        assert Rank(init[i]) <= Rank(init[last]);
      }
      if InstanceCreated(enableValidationLayers, env) {
        var k := if enableValidationLayers then 1 else 0;
        assert init[k].CreateInstance?;
      }
    }
  }
}
