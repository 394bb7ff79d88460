/** The queue-family capability query: which family of a physical device
    accepts graphics work. */
module QueueFamilies {
  import opened Vk
  import opened Search

  /** The queue capabilities the application needs, each resolved to a family
      index or still unresolved. Only graphics is required. */
  datatype QueueFamilyIndices = QueueFamilyIndices(graphicsFamily: Option<nat>)
  {
    /** Every required capability has a family. */
    predicate IsComplete()
    {
      graphicsFamily.Some?
    }
  }

  /** Scans the family list in index order, records the first graphics-capable
      index and stops as soon as the record is complete. */
  method FindQueueFamilies(queueFamilies: seq<QueueFamily>) returns (indices: QueueFamilyIndices)
    ensures indices.graphicsFamily == FirstMatch(queueFamilies, SupportsGraphics)
    ensures indices.IsComplete() <==> exists i :: 0 <= i < |queueFamilies| && SupportsGraphics(queueFamilies[i])
  {
    indices := QueueFamilyIndices(None);
    var i := 0;
    while i < |queueFamilies|
      invariant 0 <= i <= |queueFamilies|
      invariant indices.graphicsFamily == None
      invariant forall j :: 0 <= j < i ==> !SupportsGraphics(queueFamilies[j])
    {
      if SupportsGraphics(queueFamilies[i]) {
        indices := indices.(graphicsFamily := Some(i));
      }
      if indices.IsComplete() {
        FirstMatchUnique(queueFamilies, SupportsGraphics, i);
        break;
      }
      i := i + 1;
    }
  }

  /** With graphics-capable families at 0 and 2, the query settles on 0. */
  lemma LowestGraphicsFamilyWins()
    ensures FirstMatch([QueueFamily(QUEUE_GRAPHICS_BIT), QueueFamily(QUEUE_TRANSFER_BIT),
                        QueueFamily(QUEUE_GRAPHICS_BIT | QUEUE_COMPUTE_BIT)], SupportsGraphics) == Some(0)
  {
  }
}
