/**
 * The JS side (RFIDScanner): a registry of callbacks per event name, and the four
 * handlers the native events are delivered to, each calling every callback registered
 * for its event name in registration order.
 *
 * Callbacks are compared by their source text (`toString()`), so a callback is its
 * text here; calling one is recorded as an invocation with its argument.
 */
module RFIDScannerJs {
  import opened Common
  import opened Events

  const TagEventName := "tag"
  const TagsEventName := "tags"
  const StatusEventName := "status"
  const SettingEventName := "SettingEvent"

  /** What a callback is called with. */
  datatype Argument =
    | Text(text: string)                 // a status string or one tag result
    | Texts(texts: seq<string>)          // one batch of tag results
    | SettingPayload(message: string)    // the whole setting event object

  datatype Invocation = Invocation(callback: string, argument: Argument)

  /** Calling each callback of `callbacks` in order with `arg`. */
  function Invocations(callbacks: seq<string>, arg: Argument): seq<Invocation>
    decreases |callbacks|
  {
    if callbacks == [] then []
    else Invocations(callbacks[..|callbacks| - 1], arg) + [Invocation(callbacks[|callbacks| - 1], arg)]
  }

  /** Each callback is called exactly once, in registration order, with the same argument. */
  lemma {:induction false} InvocationsInOrder(callbacks: seq<string>, arg: Argument)
    ensures |Invocations(callbacks, arg)| == |callbacks|
    ensures forall i :: 0 <= i < |callbacks| ==> Invocations(callbacks, arg)[i] == Invocation(callbacks[i], arg)
    decreases |callbacks|
  {
    if callbacks != [] {
      var init := callbacks[..|callbacks| - 1];
      InvocationsInOrder(init, arg);
      assert forall i :: 0 <= i < |init| ==> init[i] == callbacks[i];
    }
  }

  /** The callbacks registered for an event name; none when it was never registered. */
  function Registered(callbacks: map<string, seq<string>>, event: string): seq<string> {
    if event in callbacks then callbacks[event] else []
  }

  // ---------------------------------------------------------------------------
  // removeon splices inside forEach: forEach visits the indices of the original
  // length on the array as it is now, so the entry after each removed one moves into
  // the visited index and is never looked at.
  // ---------------------------------------------------------------------------

  /** The list removeon leaves behind. */
  function SpliceMatches(l: seq<string>, cb: string): (r: seq<string>)
    ensures |r| <= |l|
    decreases |l|
  {
    if |l| == 0 then []
    else if l[0] == cb then (if |l| == 1 then [] else [l[1]] + SpliceMatches(l[2..], cb))
    else [l[0]] + SpliceMatches(l[1..], cb)
  }

  /** `l` with every entry equal to `cb` dropped, in order. */
  function Without(l: seq<string>, cb: string): (r: seq<string>)
    ensures cb !in r
  {
    if l == [] then [] else (if l[0] == cb then [] else [l[0]]) + Without(l[1..], cb)
  }

  /** `cb` occurs twice in a row in `l`. */
  predicate AdjacentPair(l: seq<string>, cb: string) {
    exists i :: 0 <= i < |l| - 1 && l[i] == cb && l[i + 1] == cb
  }

  /** removeon only ever drops entries equal to `cb`: the other entries stay, in order. */
  lemma {:induction false} SpliceMatchesKeepsOthers(l: seq<string>, cb: string)
    ensures Without(SpliceMatches(l, cb), cb) == Without(l, cb)
    decreases |l|
  {
    if |l| == 0 {
    } else if l[0] == cb {
      if |l| > 1 {
        var r := SpliceMatches(l, cb);
        SpliceMatchesKeepsOthers(l[2..], cb);
        assert r == [l[1]] + SpliceMatches(l[2..], cb);
        assert r[1..] == SpliceMatches(l[2..], cb);
        assert l[1..][1..] == l[2..];
      }
    } else {
      var r := SpliceMatches(l, cb);
      SpliceMatchesKeepsOthers(l[1..], cb);
      assert r[1..] == SpliceMatches(l[1..], cb);
    }
  }

  /** With no registration of `cb`, removeon changes nothing. */
  lemma {:induction false} SpliceMatchesAbsent(l: seq<string>, cb: string)
    requires cb !in l
    ensures SpliceMatches(l, cb) == l
    decreases |l|
  {
    if |l| > 0 {
      assert cb !in l[1..];
      SpliceMatchesAbsent(l[1..], cb);
    }
  }

  /**
   * removeon removes every registration of `cb` exactly when no two of them are
   * adjacent; of two adjacent ones the second always survives.
   */
  lemma {:induction false} SpliceMatchesRemovesAllIff(l: seq<string>, cb: string)
    ensures cb in SpliceMatches(l, cb) <==> AdjacentPair(l, cb)
    decreases |l|
  {
    if |l| == 0 {
    } else if l[0] == cb {
      if |l| == 1 {
      } else {
        SpliceMatchesRemovesAllIff(l[2..], cb);
        if AdjacentPair(l[2..], cb) {
          var i :| 0 <= i < |l[2..]| - 1 && l[2..][i] == cb && l[2..][i + 1] == cb;
          assert l[i + 2] == cb && l[i + 3] == cb;
        }
        if AdjacentPair(l, cb) && l[1] != cb {
          var i :| 0 <= i < |l| - 1 && l[i] == cb && l[i + 1] == cb;
          assert i >= 2;
          assert l[2..][i - 2] == cb && l[2..][i - 1] == cb;
        }
      }
    } else {
      SpliceMatchesRemovesAllIff(l[1..], cb);
      if AdjacentPair(l[1..], cb) {
        var i :| 0 <= i < |l[1..]| - 1 && l[1..][i] == cb && l[1..][i + 1] == cb;
        assert l[i + 1] == cb && l[i + 2] == cb;
      }
      if AdjacentPair(l, cb) {
        var i :| 0 <= i < |l| - 1 && l[i] == cb && l[i + 1] == cb;
        assert i >= 1;
        assert l[1..][i - 1] == cb && l[1..][i] == cb;
      }
    }
  }

  /** Registered twice in a row, a callback is still registered once after removeon. */
  lemma AdjacentDuplicateSurvives(cb: string)
    ensures SpliceMatches([cb, cb], cb) == [cb]
  {
    assert [cb, cb][2..] == [];
  }

  /**
   * forEach at index `k` of removeon's loop: what was visited stays, the rest is still
   * to be spliced.
   */
  function Visited(cur: seq<string>, k: nat, cb: string): seq<string> {
    var m := Min(k, |cur|);
    cur[..m] + SpliceMatches(cur[m..], cb)
  }

  /** One visit of removeon's forEach keeps what the loop will end with. */
  lemma VisitStep(cur: seq<string>, k: nat, cb: string)
    ensures var next := if k < |cur| && cur[k] == cb then cur[..k] + cur[k + 1..] else cur;
      Visited(next, k + 1, cb) == Visited(cur, k, cb)
  {
    if k < |cur| && cur[k] == cb {
      var next := cur[..k] + cur[k + 1..];
      if k + 1 < |cur| {
        assert cur[k..][2..] == cur[k + 2..];
        assert next[..k + 1] == cur[..k] + [cur[k + 1]];
        assert next[k + 1..] == cur[k + 2..];
        assert cur[..k] + [cur[k + 1]] + SpliceMatches(cur[k + 2..], cb) == cur[..k] + ([cur[k + 1]] + SpliceMatches(cur[k + 2..], cb));
      } else {
        assert next == cur[..k];
        assert next[k..] == [];
      }
    } else if k < |cur| {
      assert cur[..k + 1] == cur[..k] + [cur[k]];
      assert cur[k..][1..] == cur[k + 1..];
    }
  }

  class RFIDScanner {
    var oncallbacks: map<string, seq<string>>
    /** Every callback call made, in order. */
    var invoked: seq<Invocation>

    constructor ()
      ensures oncallbacks == map[] && invoked == []
    {
      oncallbacks := map[];
      invoked := [];
    }

    /** on: register `callback` at the end of the event's list, creating the list. */
    method On(event: string, callback: string)
      modifies this`oncallbacks
      ensures oncallbacks == old(oncallbacks)[event := Registered(old(oncallbacks), event) + [callback]]
    {
      if event !in oncallbacks {
        oncallbacks := oncallbacks[event := []];
      }
      oncallbacks := oncallbacks[event := oncallbacks[event] + [callback]];
    }

    /** removeon: splice every visited entry equal to `callback` out of the event's list. */
    method RemoveOn(event: string, callback: string)
      modifies this`oncallbacks
      ensures oncallbacks ==
        if event in old(oncallbacks) then old(oncallbacks)[event := SpliceMatches(old(oncallbacks)[event], callback)]
        else old(oncallbacks)
    {
      if event !in oncallbacks {
        return;
      }
      var original := oncallbacks[event];
      var k := 0;
      assert original[..0] + SpliceMatches(original[0..], callback) == SpliceMatches(original, callback);
      while k < |original|
        invariant 0 <= k <= |original|
        invariant event in oncallbacks && oncallbacks == old(oncallbacks)[event := oncallbacks[event]]
        invariant |oncallbacks[event]| <= |original|
        invariant SpliceMatches(original, callback) == Visited(oncallbacks[event], k, callback)
      {
        var cur := oncallbacks[event];
        VisitStep(cur, k, callback);
        if k < |cur| && cur[k] == callback {
          oncallbacks := oncallbacks[event := cur[..k] + cur[k + 1..]];
        }
        k := k + 1;
      }
      var cur := oncallbacks[event];
      assert Min(k, |cur|) == |cur|;
      assert cur[..|cur|] == cur && cur[|cur|..] == [];
      assert Visited(cur, k, callback) == cur;
    }

    /** removeonevent: every callback of the event goes, by assigning a fresh empty list once per entry. */
    method RemoveOnEvent(event: string)
      modifies this`oncallbacks
      ensures oncallbacks == if event in old(oncallbacks) then old(oncallbacks)[event := []] else old(oncallbacks)
    {
      if event !in oncallbacks {
        return;
      }
      var original := oncallbacks[event];
      if original == [] {
        assert oncallbacks == old(oncallbacks)[event := []];
        return;
      }
      var k := 0;
      while k < |original|
        invariant 0 <= k <= |original|
        invariant oncallbacks == if k == 0 then old(oncallbacks) else old(oncallbacks)[event := []]
      {
        oncallbacks := oncallbacks[event := []];
        k := k + 1;
      }
    }

    /** hason: whether `callback` is registered for the event. */
    method HasOn(event: string, callback: string) returns (result: bool)
      ensures result <==> event in oncallbacks && callback in oncallbacks[event]
    {
      result := false;
      if event in oncallbacks {
        var callbacks := oncallbacks[event];
        var i := 0;
        while i < |callbacks|
          invariant 0 <= i <= |callbacks|
          invariant result <==> callback in callbacks[..i]
        {
          assert callbacks[..i + 1] == callbacks[..i] + [callbacks[i]];
          if callbacks[i] == callback {
            result := true;
          }
          i := i + 1;
        }
        assert callbacks[..i] == callbacks;
      }
    }

    /** The forEach of a handler: call every callback of the event, in order. */
    method CallAll(event: string, arg: Argument)
      modifies this`invoked
      ensures invoked == old(invoked) + Invocations(Registered(oncallbacks, event), arg)
    {
      var callbacks := Registered(oncallbacks, event);
      var i := 0;
      while i < |callbacks|
        invariant 0 <= i <= |callbacks|
        invariant invoked == old(invoked) + Invocations(callbacks[..i], arg)
      {
        assert callbacks[..i + 1][..i] == callbacks[..i];
        invoked := invoked + [Invocation(callbacks[i], arg)];
        i := i + 1;
      }
      assert callbacks[..i] == callbacks;
    }

    method HandleStatusEvent(status: string)
      modifies this`invoked
      ensures invoked == old(invoked) + Invocations(Registered(oncallbacks, StatusEventName), Text(status))
    {
      CallAll(StatusEventName, Text(status));
    }

    method HandleSettingEvent(message: string)
      modifies this`invoked
      ensures invoked == old(invoked) + Invocations(Registered(oncallbacks, SettingEventName), SettingPayload(message))
    {
      CallAll(SettingEventName, SettingPayload(message));
    }

    method HandleTagEvent(tag: string)
      modifies this`invoked
      ensures invoked == old(invoked) + Invocations(Registered(oncallbacks, TagEventName), Text(tag))
    {
      CallAll(TagEventName, Text(tag));
    }

    method HandleTagsEvent(tags: seq<string>)
      modifies this`invoked
      ensures invoked == old(invoked) + Invocations(Registered(oncallbacks, TagsEventName), Texts(tags))
    {
      CallAll(TagsEventName, Texts(tags));
    }

    /** The listeners the constructor adds: each native event goes to its handler. */
    method Deliver(e: Event)
      modifies this`invoked
      ensures invoked == old(invoked) + Invocations(Registered(oncallbacks, EventName(e)), ArgumentOf(e))
    {
      match e
      case StatusEvent(status) => HandleStatusEvent(status);
      case TagEvent(tag) => HandleTagEvent(tag);
      case TagsEvent(tags) => HandleTagsEvent(tags);
      case SettingEvent(message) => HandleSettingEvent(message);
    }
  }

  /** The registry name of the handler a native event reaches. */
  function EventName(e: Event): string {
    match e
    case StatusEvent(_) => StatusEventName
    case TagEvent(_) => TagEventName
    case TagsEvent(_) => TagsEventName
    case SettingEvent(_) => SettingEventName
  }

  function ArgumentOf(e: Event): Argument {
    match e
    case StatusEvent(status) => Text(status)
    case TagEvent(tag) => Text(tag)
    case TagsEvent(tags) => Texts(tags)
    case SettingEvent(message) => SettingPayload(message)
  }
}
