/** Side-by-side pose comparison (src/components/pose/PoseComparison.tsx):
    the three events it steps through cyclically, the position label, and
    the record of snapshot images that failed to load. */
module PoseComparison {
  import opened Common
  import opened Types

  /** `swingEvents`: the events this view compares, in order (impact is not
      one of them). */
  const Events: seq<SwingEvent> := [Setup, TopBackswing, FollowThrough]

  /** `swingEvents.findIndex(e => e.key === event)` */
  function EventIndex(e: SwingEvent): (r: int)
    ensures -1 <= r < |Events|
    ensures r >= 0 ==> Events[r] == e
    ensures r == -1 <==> e !in Events
  {
    if e == Setup then 0
    else if e == TopBackswing then 1
    else if e == FollowThrough then 2
    else -1
  }

  /** The "Previous" button: one step back, from the first to the last. */
  function PrevEvent(e: SwingEvent): SwingEvent {
    var i := EventIndex(e);
    Events[if i > 0 then i - 1 else |Events| - 1]
  }

  /** The "Next" button: one step on, from the last back to the first. */
  function NextEvent(e: SwingEvent): SwingEvent {
    var i := EventIndex(e);
    Events[if i < |Events| - 1 then i + 1 else 0]
  }

  /** Previous and next undo each other, three steps return to the start,
      and both wrap around at the ends. */
  lemma NavigationCycle(e: SwingEvent)
    requires e in Events
    ensures NextEvent(PrevEvent(e)) == e && PrevEvent(NextEvent(e)) == e
    ensures NextEvent(NextEvent(NextEvent(e))) == e
    ensures PrevEvent(PrevEvent(PrevEvent(e))) == e
    ensures NextEvent(e) in Events && PrevEvent(e) in Events
    ensures NextEvent(FollowThrough) == Setup && PrevEvent(Setup) == FollowThrough
    ensures e != FollowThrough ==> EventIndex(NextEvent(e)) == EventIndex(e) + 1
    ensures e != Setup ==> EventIndex(PrevEvent(e)) == EventIndex(e) - 1
  {
  }

  /** "k of 3": the one-based position of the current event. */
  function PositionLabel(e: SwingEvent): (k: int)
    requires e in Events
    ensures 1 <= k <= |Events|
    ensures Events[k - 1] == e
  {
    EventIndex(e) + 1
  }

  /** The key under which a failed image is remembered. */
  function ErrorKey(swingId: string, eventKey: string): string {
    swingId + "-" + eventKey
  }

  /** Failed images of different swings or different events never share a
      key: the three event keys end in different letters. */
  lemma ErrorKeyInjective(s1: string, e1: SwingEvent, s2: string, e2: SwingEvent)
    requires e1 in Events && e2 in Events
    requires ErrorKey(s1, EventKey(e1)) == ErrorKey(s2, EventKey(e2))
    ensures s1 == s2 && e1 == e2
  {
    var k1, k2 := ErrorKey(s1, EventKey(e1)), ErrorKey(s2, EventKey(e2));
    assert k1[|k1| - 1] == EventKey(e1)[|EventKey(e1)| - 1];
    assert k2[|k2| - 1] == EventKey(e2)[|EventKey(e2)| - 1];
    assert e1 == e2;
    assert s1 == k1[..|s1|] && s2 == k2[..|s2|];
  }

  class PoseComparisonView {
    var currentEvent: SwingEvent
    var imageErrors: map<string, bool>

    /** The current event is always one the view compares, and only failed
        images are recorded. */
    predicate Valid()
      reads this
    {
      currentEvent in Events && forall k :: k in imageErrors ==> imageErrors[k]
    }

    /** The view opens at the alignment event (setup unless given) with no
        failed images. */
    constructor (alignmentType: Option<SwingEvent>)
      requires alignmentType.Some? ==> alignmentType.value in Events
      ensures Valid()
      ensures currentEvent == (if alignmentType.Some? then alignmentType.value else Setup)
      ensures imageErrors == map[]
    {
      currentEvent := if alignmentType.Some? then alignmentType.value else Setup;
      imageErrors := map[];
    }

    /** `hasError` (a missing entry reads as `undefined`, which is falsy). */
    predicate HasError(swingId: string, eventKey: string)
      reads this
    {
      var k := ErrorKey(swingId, eventKey);
      k in imageErrors && imageErrors[k]
    }

    /** `handleImageError`: marks this one image as failed. */
    method HandleImageError(swingId: string, eventKey: string)
      requires Valid()
      modifies this
      ensures Valid()
      ensures imageErrors == old(imageErrors)[ErrorKey(swingId, eventKey) := true]
      ensures HasError(swingId, eventKey)
      ensures currentEvent == old(currentEvent)
    {
      imageErrors := imageErrors[ErrorKey(swingId, eventKey) := true];
    }

    /** `handleEventChange` from one of the event buttons. */
    method HandleEventChange(e: SwingEvent)
      requires Valid() && e in Events
      modifies this
      ensures Valid() && currentEvent == e && imageErrors == old(imageErrors)
    {
      currentEvent := e;
    }

    /** The "Previous" button. */
    method Previous()
      requires Valid()
      modifies this
      ensures Valid() && currentEvent == PrevEvent(old(currentEvent)) && imageErrors == old(imageErrors)
    {
      var currentIndex := EventIndex(currentEvent);
      var prevIndex := if currentIndex > 0 then currentIndex - 1 else |Events| - 1;
      currentEvent := Events[prevIndex];
    }

    /** The "Next" button. */
    method Next()
      requires Valid()
      modifies this
      ensures Valid() && currentEvent == NextEvent(old(currentEvent)) && imageErrors == old(imageErrors)
    {
      var currentIndex := EventIndex(currentEvent);
      var nextIndex := if currentIndex < |Events| - 1 then currentIndex + 1 else 0;
      currentEvent := Events[nextIndex];
    }
  }

  /** No handler clears a failure: once an image is marked, any later
      navigation or marking keeps it marked. */
  method FailuresPersist(v: PoseComparisonView, swingId: string, eventKey: string, other: string, otherKey: string)
    requires v.Valid()
    modifies v
    ensures v.Valid() && v.HasError(swingId, eventKey) && v.HasError(other, otherKey)
  {
    v.HandleImageError(swingId, eventKey);
    v.Next();
    v.HandleImageError(other, otherKey);
    v.Previous();
  }
}
