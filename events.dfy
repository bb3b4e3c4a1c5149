/** What the controller hands to the host's dispatchEvent, one value per call. */
module Events {

  datatype Event =
    | StatusEvent(status: string)     // "RFIDStatusEvent" with a map { RFIDStatusEvent: status }
    | TagEvent(tag: string)           // "TagEvent" with one result string
    | TagsEvent(tags: seq<string>)    // "TagsEvent" with the batch of result strings
    | SettingEvent(message: string)   // "SettingEvent" with a map { SettingsEvent: message }

  /** The TagEvents dispatched for the result strings, as they are gathered. */
  function TagEvents(tags: seq<string>): seq<Event>
    decreases |tags|
  {
    if tags == [] then [] else TagEvents(tags[..|tags| - 1]) + [TagEvent(tags[|tags| - 1])]
  }

  /** One TagEvent per result string, in order. */
  lemma {:induction false} TagEventsInOrder(tags: seq<string>)
    ensures |TagEvents(tags)| == |tags|
    ensures forall i :: 0 <= i < |tags| ==> TagEvents(tags)[i] == TagEvent(tags[i])
    decreases |tags|
  {
    if tags != [] {
      var init := tags[..|tags| - 1];
      TagEventsInOrder(init);
      assert forall i :: 0 <= i < |init| ==> init[i] == tags[i];
    }
  }

  lemma AppendAssoc(a: seq<Event>, b: seq<Event>, c: seq<Event>)
    ensures (a + b) + c == a + (b + c)
  {
  }
}
