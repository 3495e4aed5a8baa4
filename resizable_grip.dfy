/**
 * The drag handle of src/components/ResizableGrip/index.tsx, which splits a container between
 * the head and the chat: the heights computed on a mouse move (lines 26-43) and the dragging
 * flag the mouse button toggles (lines 17-23 and 45-47).
 *
 * Pixel positions are integers here; the browser's fractional coordinates are not modelled.
 */
module ResizableGrip {
  import opened Common

  /** The default minimum height of either pane. */
  const DefaultMinHeight: int := 150

  function Max(a: int, b: int): int { if a >= b then a else b }

  /** The head and chat heights reported to `onResize`. */
  datatype Split = Split(head: int, chat: int)

  /**
   * The heights for a pointer `relativeY` pixels below the container's top: the head is at least
   * its minimum, the chat takes the rest but at least its minimum, and the pair is reported only
   * when it fits the container.
   */
  function ComputeResize(relativeY: int, containerHeight: int, minHead: int, minChat: int): (r: Option<Split>)
    ensures r.Some? ==> r.value.head >= minHead && r.value.chat >= minChat
    ensures r.Some? ==> r.value.head + r.value.chat == containerHeight
    ensures r.Some? <==> minHead + minChat <= containerHeight && relativeY <= containerHeight - minChat
  {
    var headHeight := Max(minHead, relativeY);
    var chatHeight := Max(minChat, containerHeight - headHeight);
    if headHeight + chatHeight <= containerHeight then Some(Split(headHeight, chatHeight)) else None
  }

  // ---------------------------------------------------------------------------------------------
  // Properties

  /** A pointer between the two minimums splits the container exactly at the pointer. */
  lemma ExactSplit(relativeY: int, containerHeight: int, minHead: int, minChat: int)
    requires minHead <= relativeY <= containerHeight - minChat
    ensures ComputeResize(relativeY, containerHeight, minHead, minChat)
      == Some(Split(relativeY, containerHeight - relativeY))
  {
  }

  /** A pointer above the head's minimum reports the minimum head, when the minimums fit. */
  lemma ClampedHead(relativeY: int, containerHeight: int, minHead: int, minChat: int)
    requires relativeY < minHead && minHead + minChat <= containerHeight
    ensures ComputeResize(relativeY, containerHeight, minHead, minChat)
      == Some(Split(minHead, containerHeight - minHead))
  {
  }

  /** A container smaller than the two minimums together is never resized. */
  lemma ImpossibleFit(relativeY: int, containerHeight: int, minHead: int, minChat: int)
    requires containerHeight < minHead + minChat
    ensures ComputeResize(relativeY, containerHeight, minHead, minChat).None?
  {
  }

  // ---------------------------------------------------------------------------------------------
  // The component

  class Grip {
    var isDragging: bool
    /** Every pair passed to `onResize`, oldest first. */
    var reported: seq<Split>
    /** The props: the container height and the two minimums. */
    const containerHeight: int
    const minHeadHeight: int
    const minChatHeight: int

    /** Every reported pair respects both minimums and fills the container exactly. */
    ghost predicate Valid()
      reads this
    {
      forall i :: 0 <= i < |reported| ==>
        && reported[i].head >= minHeadHeight && reported[i].chat >= minChatHeight
        && reported[i].head + reported[i].chat == containerHeight
    }

    /** A grip with the given props; an unset minimum is 150. */
    constructor (containerHeight: int, minHead: Option<int>, minChat: Option<int>)
      ensures Valid() && !isDragging && reported == []
      ensures this.containerHeight == containerHeight
      ensures minHeadHeight == minHead.GetOr(DefaultMinHeight)
      ensures minChatHeight == minChat.GetOr(DefaultMinHeight)
    {
      isDragging := false;
      reported := [];
      this.containerHeight := containerHeight;
      minHeadHeight := minHead.GetOr(DefaultMinHeight);
      minChatHeight := minChat.GetOr(DefaultMinHeight);
    }

    /** `handleMouseDown`. */
    method MouseDown()
      requires Valid()
      modifies this
      ensures Valid() && isDragging && reported == old(reported)
    {
      isDragging := true;
    }

    /** `handleMouseUp`. */
    method MouseUp()
      requires Valid()
      modifies this
      ensures Valid() && !isDragging && reported == old(reported)
    {
      isDragging := false;
    }

    /**
     * `handleMouseMove`: nothing happens unless dragging and the container's top is known;
     * otherwise the heights for the pointer are reported when they fit.
     */
    method MouseMove(clientY: int, containerTop: Option<int>)
      requires Valid()
      modifies this
      ensures Valid() && isDragging == old(isDragging)
      ensures !isDragging || containerTop.None? ==> reported == old(reported)
      ensures isDragging && containerTop.Some? ==>
        var r := ComputeResize(clientY - containerTop.value, containerHeight, minHeadHeight, minChatHeight);
        reported == old(reported) + (if r.Some? then [r.value] else [])
    {
      if !isDragging || containerTop.None? {
        return;
      }
      var relativeY := clientY - containerTop.value;
      var r := ComputeResize(relativeY, containerHeight, minHeadHeight, minChatHeight);
      if r.Some? {
        reported := reported + [r.value];
      }
    }
  }
}
