/**
 * Classification of the tag records the reader reports during an operation
 * (eventReadNotify): one result string per record according to the mode, each
 * emitted on its own and then all of them together as one batch.
 */
module TagResults {
  import opened Common
  import opened ModeConfig
  import opened Events

  /** eventReadNotify asks the reader for at most this many records per notification. */
  const MaxPoll := 100

  datatype OpCode = OpRead | OpWrite | OpLock | OpOther(name: string)

  /** ACCESS_SUCCESS, or any other status together with the text its toString() gives. */
  datatype OpStatus = AccessSuccess | AccessError(text: string)

  /** One polled record; `None` for the code's null opCode, opStatus and memoryBankData. */
  datatype TagRecord = TagRecord(
    id: string,
    opCode: Option<OpCode>,
    opStatus: Option<OpStatus>,
    memoryBankData: Option<string>)

  /** No result string (null), a result string, or an exception that ends the notification. */
  datatype Outcome = NoResult | Result(text: string) | Aborts

  /** `replaceAll("_", " ")`. */
  function SpaceUnderscores(s: string): (r: string)
    ensures |r| == |s|
    ensures forall i :: 0 <= i < |s| ==> r[i] == (if s[i] == '_' then ' ' else s[i])
  {
    if s == [] then [] else [if s[0] == '_' then ' ' else s[0]] + SpaceUnderscores(s[1..])
  }

  lemma {:induction false} SpaceUnderscoresLeavesNone(s: string)
    ensures '_' !in SpaceUnderscores(s)
    ensures SpaceUnderscores(SpaceUnderscores(s)) == SpaceUnderscores(s)
  {
    var r := SpaceUnderscores(s);
    assert forall i :: 0 <= i < |r| ==> r[i] != '_';
    var rr := SpaceUnderscores(r);
    assert |rr| == |r|;
    assert forall i :: 0 <= i < |r| ==> rr[i] == r[i];
  }

  /** The texts of one access mode's failure branches. */
  datatype Access = Access(op: OpCode, nullRecord: string, nullOpCode: string, mismatch: string)

  const WriteAccess := Access(OpWrite, "ACCESS WRITE OPERATION FAILED", "ACCESS WRITE memoryBankData is null", "WRITE FAIL")
  const ReadAccess := Access(OpRead, "ACCESS OPERATION FAILED", "ACCESS READ memoryBankData is null", "READ FAIL")
  const LockAccess := Access(OpLock, "ACCESS LOCK OPERATION FAILED", "ACCESS LOCK memoryBankData is null", "LOCK FAIL")
  const WriteSuccess := "WRITE SUCCESS"

  /** The record reports the expected operation with no failure status. */
  predicate Succeeded(rec: Option<TagRecord>, op: OpCode) {
    && rec.Some?
    && rec.value.opCode == Some(op)
    && (rec.value.opStatus.None? || rec.value.opStatus.value.AccessSuccess?)
  }

  /** The record carries a failure status (and an op code, which is checked first). */
  predicate FailedWithStatus(rec: Option<TagRecord>) {
    rec.Some? && rec.value.opCode.Some? && rec.value.opStatus.Some? && rec.value.opStatus.value.AccessError?
  }

  /** The branches shared by WRITE, READ and LOCK; `onSuccess` is the matching-op-code branch. */
  function AccessOutcome(rec: Option<TagRecord>, a: Access, onSuccess: Outcome): Outcome {
    if rec.None? then Result(a.nullRecord)
    else if rec.value.opCode.None? then Result(a.nullOpCode)
    else if rec.value.opStatus.Some? && rec.value.opStatus.value.AccessError? then
      Result(SpaceUnderscores(rec.value.opStatus.value.text))
    else if rec.value.opCode.value == a.op then onSuccess
    else Result(a.mismatch)
  }

  /**
   * READ and LOCK success: the memory-bank data without its last `offset` digits.
   * With a positive offset a null or too short payload makes `substring` throw.
   */
  function TrimmedData(data: Option<string>, offset: int): Outcome {
    if offset > 0 then
      if data.None? || |data.value| < offset then Aborts
      else Result(data.value[..|data.value| - offset])
    else if data.None? then NoResult
    else Result(data.value)
  }

  function DataOf(rec: Option<TagRecord>): Option<string> {
    if rec.Some? then rec.value.memoryBankData else None
  }

  /** The modes that issue a tag access: WRITE, READ and LOCK. */
  predicate AccessMode(mode: Mode) {
    mode == WriteMode || mode == ReadMode || mode == LockMode
  }

  /** The result string for one record in mode `mode`, `offset` being readLengthOffset. */
  function Classify(mode: Mode, rec: Option<TagRecord>, offset: int): (o: Outcome)
    // INVENTORY reports the id; a null record throws at getTagID()
    ensures mode == InventoryMode ==> o == (if rec.None? then Aborts else Result(rec.value.id))
    // NONE and unknown modes report nothing
    ensures mode.NoneMode? || mode.OtherMode? ==> o == NoResult
    // WRITE always reports something
    ensures mode == WriteMode ==> o.Result?
    ensures mode == WriteMode && Succeeded(rec, OpWrite) ==> o == Result(WriteSuccess)
    // failure branches of every access mode: a null record, a null op code, a failure status
    ensures AccessMode(mode) && rec.None? ==> o == Result(AccessFor(mode).nullRecord)
    ensures AccessMode(mode) && rec.Some? && rec.value.opCode.None? ==> o == Result(AccessFor(mode).nullOpCode)
    ensures AccessMode(mode) && FailedWithStatus(rec) ==>
              o == Result(SpaceUnderscores(rec.value.opStatus.value.text))
    ensures (AccessMode(mode) && !FailedWithStatus(rec) && rec.Some? &&
             rec.value.opCode.Some? && !Succeeded(rec, OpFor(mode))) ==> o == Result(AccessFor(mode).mismatch)
    // READ and LOCK success: exactly the cases with no string and the cases that throw
    ensures (mode == ReadMode || mode == LockMode) ==>
              (o.NoResult? <==> Succeeded(rec, OpFor(mode)) && offset <= 0 && DataOf(rec).None?)
    ensures (mode == ReadMode || mode == LockMode) ==>
              (o.Aborts? <==> Succeeded(rec, OpFor(mode)) && offset > 0 &&
                              (DataOf(rec).None? || |DataOf(rec).value| < offset))
    ensures (mode == ReadMode || mode == LockMode) && Succeeded(rec, OpFor(mode)) && o.Result? ==>
              var d := DataOf(rec).value;
              var cut := if offset > 0 then offset else 0;
              cut <= |d| && o.text == d[..|d| - cut]
  {
    match mode
    case InventoryMode => if rec.None? then Aborts else Result(rec.value.id)
    case WriteMode => AccessOutcome(rec, WriteAccess, Result(WriteSuccess))
    case ReadMode => AccessOutcome(rec, ReadAccess, TrimmedData(DataOf(rec), offset))
    case LockMode => AccessOutcome(rec, LockAccess, TrimmedData(DataOf(rec), offset))
    case _ => NoResult
  }

  function OpFor(mode: Mode): OpCode
    requires AccessMode(mode)
  {
    if mode == WriteMode then OpWrite else if mode == ReadMode then OpRead else OpLock
  }

  function AccessFor(mode: Mode): Access
    requires AccessMode(mode)
  {
    if mode == WriteMode then WriteAccess else if mode == ReadMode then ReadAccess else LockAccess
  }

  /**
   * The read round trip: asking for `n >= 0` digits reads ReadWords(n) whole words;
   * a successful record carrying those 4 * ReadWords(n) digits reports exactly the
   * first `n`, and reports the data untouched when `n` is a whole number of words.
   */
  lemma ReadResultIsRequestedLength(n: int, rec: Option<TagRecord>)
    requires n >= 0
    requires Succeeded(rec, OpRead) && DataOf(rec).Some?
    requires |DataOf(rec).value| == 4 * ReadWords(n)
    ensures Classify(ReadMode, rec, ReadOffset(n)) == Result(DataOf(rec).value[..n])
    ensures n % 4 == 0 ==> Classify(ReadMode, rec, ReadOffset(n)) == Result(DataOf(rec).value)
  {
    ReadLengthRounding(n);
    var d := DataOf(rec).value;
    if n % 4 == 0 {
      assert ReadOffset(n) == 0;
      assert d[..n] == d;
    }
  }

  // ---------------------------------------------------------------------------
  // One notification: the polled records in order.
  // ---------------------------------------------------------------------------

  /** The records one getReadTagsEx(100) call hands back. */
  function Poll(queue: seq<Option<TagRecord>>): (batch: seq<Option<TagRecord>>)
    ensures |batch| <= MaxPoll && |batch| <= |queue| && batch == queue[..|batch|]
    ensures |queue| <= MaxPoll ==> batch == queue
  {
    queue[..Min(|queue|, MaxPoll)]
  }

  /** The strings gathered so far and whether an exception ended the loop. */
  datatype BatchResult = BatchResult(texts: seq<string>, aborted: bool)

  /** The loop of eventReadNotify, one record at a time from the front. */
  function Results(mode: Mode, offset: int, batch: seq<Option<TagRecord>>): (r: BatchResult)
    ensures |r.texts| <= |batch|
    decreases |batch|
  {
    if batch == [] then BatchResult([], false)
    else
      var p := Results(mode, offset, batch[..|batch| - 1]);
      if p.aborted then p
      else match Classify(mode, batch[|batch| - 1], offset)
        case NoResult => p
        case Result(t) => BatchResult(p.texts + [t], false)
        case Aborts => BatchResult(p.texts, true)
  }

  /** The loop of eventReadNotify after one more record, from a state where nothing threw. */
  lemma ResultsStep(mode: Mode, offset: int, batch: seq<Option<TagRecord>>, i: nat, tags: seq<string>)
    requires i < |batch| && Results(mode, offset, batch[..i]) == BatchResult(tags, false)
    ensures var o := Classify(mode, batch[i], offset);
            && Results(mode, offset, batch[..i + 1]) ==
                 (if o.Result? then BatchResult(tags + [o.text], false) else BatchResult(tags, o.Aborts?))
            && (o.Result? ==> TagEvents(tags + [o.text]) == TagEvents(tags) + [TagEvent(o.text)])
  {
    assert batch[..i + 1][..i] == batch[..i];
    var o := Classify(mode, batch[i], offset);
    if o.Result? {
      assert (tags + [o.text])[..|tags|] == tags;
    }
  }

  /** What eventReadNotify dispatches for one batch. */
  function NotifyEvents(mode: Mode, offset: int, batch: seq<Option<TagRecord>>): seq<Event> {
    var r := Results(mode, offset, batch);
    TagEvents(r.texts) + (if !r.aborted && |r.texts| > 0 then [TagsEvent(r.texts)] else [])
  }

  /** Once an exception has ended the loop, the later records change nothing. */
  lemma {:induction false} ResultsAfterAbort(mode: Mode, offset: int, batch: seq<Option<TagRecord>>, i: nat)
    requires i <= |batch|
    requires Results(mode, offset, batch[..i]).aborted
    ensures Results(mode, offset, batch) == Results(mode, offset, batch[..i])
    decreases |batch| - i
  {
    if i < |batch| {
      assert batch[..i + 1][..i] == batch[..i];
      ResultsAfterAbort(mode, offset, batch, i + 1);
    } else {
      assert batch[..i] == batch;
    }
  }

  /** The loop of eventReadNotify stops at the end of the batch or at the first record that throws. */
  lemma ResultsEnd(mode: Mode, offset: int, batch: seq<Option<TagRecord>>, i: nat, tags: seq<string>, aborted: bool)
    requires i <= |batch| && Results(mode, offset, batch[..i]) == BatchResult(tags, aborted)
    requires i == |batch| || aborted
    ensures NotifyEvents(mode, offset, batch) ==
            TagEvents(tags) + (if !aborted && |tags| > 0 then [TagsEvent(tags)] else [])
  {
    if aborted {
      ResultsAfterAbort(mode, offset, batch, i);
    } else {
      assert batch[..i] == batch;
    }
  }

  // An independent reference: the result strings of the records, read from the front.

  function ResultText(o: Outcome): seq<string> {
    if o.Result? then [o.text] else []
  }

  function ClassifiedTexts(mode: Mode, offset: int, s: seq<Option<TagRecord>>): seq<string> {
    if s == [] then [] else ResultText(Classify(mode, s[0], offset)) + ClassifiedTexts(mode, offset, s[1..])
  }

  predicate NoAbort(mode: Mode, offset: int, s: seq<Option<TagRecord>>) {
    forall i :: 0 <= i < |s| ==> !Classify(mode, s[i], offset).Aborts?
  }

  lemma {:induction false} ClassifiedTextsSnoc(mode: Mode, offset: int, s: seq<Option<TagRecord>>, x: Option<TagRecord>)
    ensures ClassifiedTexts(mode, offset, s + [x]) ==
            ClassifiedTexts(mode, offset, s) + ResultText(Classify(mode, x, offset))
  {
    if s == [] {
      assert [x][1..] == [];
    } else {
      var h := ResultText(Classify(mode, s[0], offset));
      var t := ResultText(Classify(mode, x, offset));
      assert (s + [x])[0] == s[0] && (s + [x])[1..] == s[1..] + [x];
      ClassifiedTextsSnoc(mode, offset, s[1..], x);
      calc {
        ClassifiedTexts(mode, offset, s + [x]);
        h + ClassifiedTexts(mode, offset, s[1..] + [x]);
        h + (ClassifiedTexts(mode, offset, s[1..]) + t);
        (h + ClassifiedTexts(mode, offset, s[1..])) + t;
      }
    }
  }

  lemma {:induction false} ResultsWithoutAbort(mode: Mode, offset: int, s: seq<Option<TagRecord>>)
    requires NoAbort(mode, offset, s)
    ensures Results(mode, offset, s) == BatchResult(ClassifiedTexts(mode, offset, s), false)
    decreases |s|
  {
    if s != [] {
      var init := s[..|s| - 1];
      assert NoAbort(mode, offset, init) by {
        forall i | 0 <= i < |init| ensures !Classify(mode, init[i], offset).Aborts? {
          assert init[i] == s[i];
        }
      }
      ResultsWithoutAbort(mode, offset, init);
      assert s == init + [s[|s| - 1]];
      ClassifiedTextsSnoc(mode, offset, init, s[|s| - 1]);
    }
  }

  /**
   * The batch holds, in record order, the result strings of the records before the
   * first one that throws, and it is cut short exactly when some record throws.
   */
  lemma ResultsBeforeFirstAbort(mode: Mode, offset: int, batch: seq<Option<TagRecord>>, k: nat)
    requires k <= |batch| && NoAbort(mode, offset, batch[..k])
    requires k < |batch| ==> Classify(mode, batch[k], offset).Aborts?
    ensures Results(mode, offset, batch) ==
            BatchResult(ClassifiedTexts(mode, offset, batch[..k]), k < |batch|)
  {
    ResultsWithoutAbort(mode, offset, batch[..k]);
    if k < |batch| {
      assert batch[..k + 1][..k] == batch[..k];
      ResultsAfterAbort(mode, offset, batch, k + 1);
    } else {
      assert batch[..k] == batch;
    }
  }

  /** INVENTORY over non-null records: every id, in order, and the batch is emitted. */
  lemma {:induction false} InventoryReportsEveryId(offset: int, batch: seq<Option<TagRecord>>)
    requires forall i :: 0 <= i < |batch| ==> batch[i].Some?
    ensures Results(InventoryMode, offset, batch) ==
            BatchResult(seq(|batch|, i requires 0 <= i < |batch| => batch[i].value.id), false)
    decreases |batch|
  {
    if batch != [] {
      var init := batch[..|batch| - 1];
      InventoryReportsEveryId(offset, init);
      var ids := seq(|batch|, i requires 0 <= i < |batch| => batch[i].value.id);
      assert ids == seq(|init|, i requires 0 <= i < |init| => init[i].value.id) + [batch[|batch| - 1].value.id];
    }
  }

  /** WRITE reports one string per record and never throws. */
  lemma {:induction false} WriteReportsEveryRecord(offset: int, batch: seq<Option<TagRecord>>)
    ensures |Results(WriteMode, offset, batch).texts| == |batch|
    ensures !Results(WriteMode, offset, batch).aborted
    decreases |batch|
  {
    if batch != [] {
      WriteReportsEveryRecord(offset, batch[..|batch| - 1]);
    }
  }

  /** NONE and unknown modes dispatch nothing at all. */
  lemma {:induction false} SilentModesDispatchNothing(mode: Mode, offset: int, batch: seq<Option<TagRecord>>)
    requires mode.NoneMode? || mode.OtherMode?
    ensures NotifyEvents(mode, offset, batch) == []
    decreases |batch|
  {
    if batch != [] {
      SilentModesDispatchNothing(mode, offset, batch[..|batch| - 1]);
    }
  }

  /**
   * A notification dispatches single TagEvents, and at most one TagsEvent, which comes
   * last and carries exactly the strings of the TagEvents before it, in their order.
   */
  lemma NotifyEventsShape(mode: Mode, offset: int, batch: seq<Option<TagRecord>>)
    ensures |TagEvents(Results(mode, offset, batch).texts)| == |Results(mode, offset, batch).texts|
    ensures var es := NotifyEvents(mode, offset, batch);
            var r := Results(mode, offset, batch);
            && (forall j :: 0 <= j < |r.texts| ==> es[j] == TagEvent(r.texts[j]))
            && (forall j :: 0 <= j < |es| && es[j].TagsEvent? ==>
                  j == |es| - 1 && j == |r.texts| && es[j].tags == r.texts)
            && (|es| > |r.texts| <==> !r.aborted && |r.texts| > 0)
  {
    TagEventsInOrder(Results(mode, offset, batch).texts);
  }
}
