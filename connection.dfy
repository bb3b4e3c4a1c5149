/**
 * The retry loop of connect: the reader's connect is tried until an outcome breaks
 * the loop. "Region not configured" with a supported region "HKG" applies that region
 * and tries again; any other exception goes round the loop again too, leaving its
 * message (possibly null) as the pending error, so a later success still counts as a
 * failure.
 */
module Connection {
  import opened Common
  import opened Reader

  const PreferredRegion := "HKG"
  const RegionNotFound := "Region not found"
  const RegionErrorPrefix := "Error setting RFID region: "
  const PasswordErrorText := "Password error"
  const BatchModeText := "Batch mode in progress"
  const InvalidUsagePrefix := "Invalid usage "
  const NoDeviceText := "No connected device"
  const NoReaderText := "Cannot get rfid reader"

  datatype RegionInfo = RegionInfo(code: string, name: string)

  /** How one pass through the body of the retry loop ends. */
  datatype Attempt =
    | Opened                                        // connect and the listener setup return normally
    | RegionNotConfigured(regions: seq<RegionInfo>, // the reader's supported regions
                          configFailure: Option<string>) // message if the regulatory config calls throw
    | PasswordError
    | BatchModeInProgress
    | OperationFailure(result: string)              // any other RFIDResults, as text
    | InvalidUsage(message: string)
    | OtherException(exceptionMessage: Option<string>)       // getMessage() may be null

  predicate Offers(regions: seq<RegionInfo>, code: string) {
    exists i :: 0 <= i < |regions| && regions[i].code == code
  }

  /** The loop goes round again after this attempt. */
  predicate Retries(a: Attempt) {
    || a.OtherException?
    || (a.RegionNotConfigured? && a.configFailure.None? && Offers(a.regions, PreferredRegion))
  }

  /** Some attempt from index `from` on breaks the loop. */
  predicate EndsLoop(attempts: seq<Attempt>, from: nat) {
    exists j :: from <= j < |attempts| && !Retries(attempts[j])
  }

  /** The pending error after an attempt that goes round again. */
  function ErrorAfter(a: Attempt, err: Option<string>): Option<string>
    requires Retries(a)
  {
    if a.OtherException? then a.exceptionMessage else err
  }

  /** The error when the loop breaks on `a`; a success keeps the pending error. */
  function BreakError(a: Attempt, err: Option<string>): (e: Option<string>)
    requires !Retries(a)
    ensures !a.Opened? ==> e.Some?
  {
    if a.Opened? then err
    else if a.RegionNotConfigured? then
      (if a.configFailure.Some? then Some(RegionErrorPrefix + a.configFailure.value) else Some(RegionNotFound))
    else if a.PasswordError? then Some(PasswordErrorText)
    else if a.BatchModeInProgress? then Some(BatchModeText)
    else if a.OperationFailure? then Some(a.result)
    else Some(InvalidUsagePrefix + a.message)
  }

  /** The final error and how many attempts the loop consumed. */
  datatype LoopEnd = LoopEnd(err: Option<string>, used: nat)

  function RunFrom(attempts: seq<Attempt>, i: nat, err: Option<string>): (r: LoopEnd)
    requires i <= |attempts| && EndsLoop(attempts, i)
    ensures i < r.used <= |attempts|
    decreases |attempts| - i
  {
    var a := attempts[i];
    if !Retries(a) then LoopEnd(BreakError(a, err), i + 1)
    else RunFrom(attempts, i + 1, ErrorAfter(a, err))
  }

  /** The loop, starting with no error. */
  function Run(attempts: seq<Attempt>): LoopEnd
    requires EndsLoop(attempts, 0)
  {
    RunFrom(attempts, 0, None)
  }

  /** `k` is the first attempt that breaks the loop. */
  predicate FirstBreak(attempts: seq<Attempt>, k: nat) {
    k < |attempts| && !Retries(attempts[k]) && forall j :: 0 <= j < k ==> Retries(attempts[j])
  }

  /** The message of the last generic exception in `s`, or `e` when there is none. */
  function LastMessageOr(s: seq<Attempt>, e: Option<string>): Option<string> {
    if s == [] then e
    else if s[|s| - 1].OtherException? then s[|s| - 1].exceptionMessage
    else LastMessageOr(s[..|s| - 1], e)
  }

  lemma {:induction false} LastMessageCons(x: Attempt, s: seq<Attempt>, e: Option<string>)
    requires Retries(x)
    ensures LastMessageOr([x] + s, e) == LastMessageOr(s, ErrorAfter(x, e))
    decreases |s|
  {
    if s == [] {
      assert ([x] + s)[..0] == [];
    } else {
      assert ([x] + s)[..|s|] == [x] + s[..|s| - 1];
      LastMessageCons(x, s[..|s| - 1], e);
    }
  }

  lemma {:induction false} RunFromOutcome(attempts: seq<Attempt>, i: nat, k: nat, e: Option<string>)
    requires FirstBreak(attempts, k) && i <= k
    ensures EndsLoop(attempts, i)
    ensures RunFrom(attempts, i, e) == LoopEnd(BreakError(attempts[k], LastMessageOr(attempts[i..k], e)), k + 1)
    decreases k - i
  {
    assert !Retries(attempts[k]);
    if i == k {
      assert attempts[i..k] == [];
    } else {
      RunFromOutcome(attempts, i + 1, k, ErrorAfter(attempts[i], e));
      assert attempts[i..k] == [attempts[i]] + attempts[i + 1..k];
      LastMessageCons(attempts[i], attempts[i + 1..k], e);
    }
  }

  /**
   * The whole loop: it consumes the attempts up to the first one that breaks it, and
   * its error is that attempt's, or, when that attempt is a success, the message of
   * the last generic exception before it.
   */
  lemma RunOutcome(attempts: seq<Attempt>, k: nat)
    requires FirstBreak(attempts, k)
    ensures EndsLoop(attempts, 0)
    ensures Run(attempts).used == k + 1
    ensures Run(attempts).err == BreakError(attempts[k], LastMessageOr(attempts[..k], None))
  {
    RunFromOutcome(attempts, 0, k, None);
    assert attempts[0..k] == attempts[..k];
  }

  /** The loop reports success exactly when it breaks on a success with no stale message. */
  lemma RunSucceedsIff(attempts: seq<Attempt>, k: nat)
    requires FirstBreak(attempts, k)
    ensures EndsLoop(attempts, 0)
    ensures Run(attempts).err.None? <==> attempts[k].Opened? && LastMessageOr(attempts[..k], None).None?
  {
    RunOutcome(attempts, k);
  }

  /** The loop leaves the reader connected: the attempt it breaks on is a connect that returned. */
  predicate LoopOpens(attempts: seq<Attempt>)
    requires EndsLoop(attempts, 0)
  {
    attempts[Run(attempts).used - 1].Opened?
  }

  /** The loop ends on an attempt that breaks it, and only a success can end it without an error. */
  lemma {:induction false} RunFromEndsOnBreak(attempts: seq<Attempt>, i: nat, e: Option<string>)
    requires i <= |attempts| && EndsLoop(attempts, i)
    ensures var r := RunFrom(attempts, i, e);
      !Retries(attempts[r.used - 1]) && (r.err.None? ==> attempts[r.used - 1].Opened?)
    decreases |attempts| - i
  {
    if Retries(attempts[i]) {
      var j :| i <= j < |attempts| && !Retries(attempts[j]);
      assert j != i;
      assert EndsLoop(attempts, i + 1);
      RunFromEndsOnBreak(attempts, i + 1, ErrorAfter(attempts[i], e));
    }
  }

  /** A loop that reports success has left the reader connected. */
  lemma RunSucceedsOpens(attempts: seq<Attempt>)
    requires EndsLoop(attempts, 0)
    ensures Run(attempts).err.None? ==> LoopOpens(attempts)
  {
    RunFromEndsOnBreak(attempts, 0, None);
  }

  /**
   * A generic exception before a success turns the success into a failure, although
   * the reader has been connected.
   */
  lemma StaleMessageFailsConnect(m: string)
    ensures EndsLoop([OtherException(Some(m)), Opened], 0)
    ensures Run([OtherException(Some(m)), Opened]) == LoopEnd(Some(m), 2)
    ensures LoopOpens([OtherException(Some(m)), Opened])
  {
    var attempts := [OtherException(Some(m)), Opened];
    assert FirstBreak(attempts, 1);
    RunOutcome(attempts, 1);
    assert attempts[..1] == [OtherException(Some(m))];
    assert LastMessageOr(attempts[..1], None) == Some(m);
  }

  /** Region not configured, "HKG" supported: the region is applied, one retry, success. */
  lemma RegionRetryThenOpened(regions: seq<RegionInfo>)
    requires Offers(regions, PreferredRegion)
    ensures EndsLoop([RegionNotConfigured(regions, None), Opened], 0)
    ensures Run([RegionNotConfigured(regions, None), Opened]) == LoopEnd(None, 2)
  {
    var attempts := [RegionNotConfigured(regions, None), Opened];
    assert FirstBreak(attempts, 1);
    RunOutcome(attempts, 1);
    assert attempts[..1] == [RegionNotConfigured(regions, None)];
    assert LastMessageOr(attempts[..1][..0], None) == None;
  }

  /** Region not configured and "HKG" not supported: the loop stops at once. */
  lemma RegionMissingFails(regions: seq<RegionInfo>, rest: seq<Attempt>)
    requires !Offers(regions, PreferredRegion)
    ensures EndsLoop([RegionNotConfigured(regions, None)] + rest, 0)
    ensures Run([RegionNotConfigured(regions, None)] + rest) == LoopEnd(Some(RegionNotFound), 1)
  {
    assert !Retries(([RegionNotConfigured(regions, None)] + rest)[0]);
  }

  /** The region search of the loop: the first supported region with the given code. */
  method FindRegion(regions: seq<RegionInfo>, code: string) returns (found: bool, index: nat)
    ensures found <==> Offers(regions, code)
    ensures found ==> index < |regions| && regions[index].code == code
    ensures found ==> forall j :: 0 <= j < index ==> regions[j].code != code
  {
    found, index := false, 0;
    var i := 0;
    while i < |regions|
      invariant 0 <= i <= |regions|
      invariant forall j :: 0 <= j < i ==> regions[j].code != code
    {
      if regions[i].code == code {
        found, index := true, i;
        return;
      }
      i := i + 1;
    }
  }

  /** The reader calls of the attempts a connect consumed: a connect each, plus the region applied. */
  function AttemptCalls(s: seq<Attempt>): seq<SdkCall> {
    if s == [] then []
    else
      var region := if s[0].RegionNotConfigured? && Retries(s[0]) then [SetRegion(PreferredRegion)] else [];
      [ReaderConnect] + region + AttemptCalls(s[1..])
  }

  lemma {:induction false} AttemptCallsSnoc(s: seq<Attempt>, a: Attempt)
    ensures AttemptCalls(s + [a]) == AttemptCalls(s) + AttemptCalls([a])
  {
    if s == [] {
      assert s + [a] == [a];
    } else {
      assert (s + [a])[1..] == s[1..] + [a];
      AttemptCallsSnoc(s[1..], a);
    }
  }

  /** The error connect ends with after discovery; None is a successful connect. */
  function ConnectError(discovered: Option<seq<ReaderDevice>>, attempts: seq<Attempt>): (e: Option<string>)
    requires EndsLoop(attempts, 0)
    ensures e.None? ==> discovered.Some? && |discovered.value| > 0 && discovered.value[0].hasReader
  {
    if discovered.None? || |discovered.value| == 0 then Some(NoDeviceText)
    else if !discovered.value[0].hasReader then Some(NoReaderText)
    else Run(attempts).err
  }

  /** The reader calls a connect makes after discovery. */
  function ConnectCalls(discovered: Option<seq<ReaderDevice>>, attempts: seq<Attempt>): seq<SdkCall>
    requires EndsLoop(attempts, 0)
  {
    if discovered.None? || |discovered.value| == 0 || !discovered.value[0].hasReader then []
    else AttemptCalls(attempts[..Run(attempts).used])
  }

  /** A connect leaves the first discovered device's reader connected. */
  predicate ConnectOpens(discovered: Option<seq<ReaderDevice>>, attempts: seq<Attempt>)
    requires EndsLoop(attempts, 0)
  {
    && discovered.Some? && |discovered.value| > 0 && discovered.value[0].hasReader
    && LoopOpens(attempts)
  }

  /** A successful connect has connected the first device's reader. */
  lemma ConnectSucceedsOpens(discovered: Option<seq<ReaderDevice>>, attempts: seq<Attempt>)
    requires EndsLoop(attempts, 0)
    ensures ConnectError(discovered, attempts).None? ==> ConnectOpens(discovered, attempts)
  {
    RunSucceedsOpens(attempts);
  }

  /** The only device connect touches: the first one a discovery returned. */
  function FirstDevice(discovered: Option<seq<ReaderDevice>>): set<ReaderDevice> {
    if discovered.Some? && |discovered.value| > 0 then {discovered.value[0]} else {}
  }
}
