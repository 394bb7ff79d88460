/** Device suitability and the first-suitable selection policy. */
module DeviceSelection {
  import opened Vk
  import opened Search
  import opened QueueFamilies

  /** A candidate is suitable when its queue-family query comes back complete. */
  function IsDeviceSuitable(candidate: PhysicalDevice): (suitable: bool)
    ensures suitable <==> exists i :: 0 <= i < |candidate.queueFamilies| && SupportsGraphics(candidate.queueFamilies[i])
  {
    QueueFamilyIndices(FirstMatch(candidate.queueFamilies, SupportsGraphics)).IsComplete()
  }

  /** The graphics family a suitable candidate resolves to. */
  function GraphicsFamilyOf(candidate: PhysicalDevice): (family: nat)
    requires IsDeviceSuitable(candidate)
    ensures family < |candidate.queueFamilies| && SupportsGraphics(candidate.queueFamilies[family])
    ensures forall j :: 0 <= j < family ==> !SupportsGraphics(candidate.queueFamilies[j])
  {
    FirstMatch(candidate.queueFamilies, SupportsGraphics).value
  }

  /** The device chosen from an enumeration: the first suitable one. */
  function FirstSuitableDevice(devices: seq<PhysicalDevice>): (r: Option<nat>)
    ensures r.Some? ==> r.value < |devices| && IsDeviceSuitable(devices[r.value])
    ensures r.Some? ==> forall j :: 0 <= j < r.value ==> !IsDeviceSuitable(devices[j])
    ensures r.None? <==> forall j :: 0 <= j < |devices| ==> !IsDeviceSuitable(devices[j])
  {
    FirstMatch(devices, IsDeviceSuitable)
  }
}
