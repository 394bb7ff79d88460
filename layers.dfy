/** The validation-layer availability check run before instance creation. */
module Layers {

  /** Every requested layer name occurs among the available ones. */
  predicate AllLayersAvailable(requested: seq<string>, available: seq<string>)
  {
    forall k :: 0 <= k < |requested| ==> requested[k] in available
  }

  /** For each requested name, searches the available list until it is found;
      gives up at the first name that is not there. */
  method CheckValidationLayerSupport(requested: seq<string>, available: seq<string>) returns (supported: bool)
    ensures supported <==> AllLayersAvailable(requested, available)
    ensures requested == [] ==> supported
  {
    var n := 0;
    while n < |requested|
      invariant 0 <= n <= |requested|
      invariant forall k :: 0 <= k < n ==> requested[k] in available
    {
      var layerName := requested[n];
      var layerFound := false;
      var m := 0;
      while m < |available|
        invariant 0 <= m <= |available|
        invariant !layerFound
        invariant forall j :: 0 <= j < m ==> available[j] != layerName
      {
        if layerName == available[m] {
          layerFound := true;
          break;
        }
        m := m + 1;
      }
      if !layerFound {
        return false;
      }
      n := n + 1;
    }
    return true;
  }
}
