/**
 * The session controller (RFIDScannerThread): the device handle, the operating mode
 * and its parameters, the `active` flag of the running reader action, and the two
 * things the outside world sees of it, the events it dispatches and the calls it makes
 * on the reader.
 *
 * An exception that escapes an operation is its `ok` result being false; whether a
 * reader call throws is a parameter of the operation that makes it.
 */
module ScannerThread {
  import opened Common
  import opened ModeConfig
  import opened Events
  import opened Reader
  import opened TagResults
  import opened StatusEvents
  import opened Connection

  const SetModeLogPrefix := "LOG: SET MODE: "
  const AntennaSettingMessage := "Setting Antennas to 240 completed"
  const OpenedStatus := "opened"
  const ClosedStatus := "closed"
  const LockPassword := 0

  // ---------------------------------------------------------------------------
  // The reader calls each operation makes, from the mode data it reads.
  // ---------------------------------------------------------------------------

  /** Tag pattern A on the tag id, for read and lock: only with an id and a filter bank. */
  function AccessFilterFor(d: ModeData): (f: Option<Filter>)
    ensures f.Some? <==> d.tagId.Some? && d.filterMemoryBank.Some?
    ensures f.Some? ==> f.value == Filter(d.filterMemoryBank.value, d.tagId.value, 4 * |d.tagId.value|)
  {
    if d.tagId.Some? && d.filterMemoryBank.Some? then
      Some(Filter(d.filterMemoryBank.value, d.tagId.value, 4 * |d.tagId.value|))
    else None
  }

  /** readEvent: readLength words of the memory bank (user when unset). */
  function ReadEventFor(d: ModeData): SdkCall {
    ReadEvent(EffectiveBank(d.memoryBank), d.readLength, AccessFilterFor(d))
  }

  /** lockEvent with the lock field, password 0 and the access filter. */
  function LockEventFor(d: ModeData): SdkCall {
    LockEvent(d.lockMemory, LockPassword, AccessFilterFor(d))
  }

  /** write gets past setWriteConfig and its uses of tagData and tagId. */
  predicate WriteProceeds(d: ModeData, sdk: SdkCalls) {
    sdk.configOk && d.tagData.Some? && d.tagId.Some?
  }

  /**
   * The calls of a write: the write configuration, then, unless it or a null tagData
   * or tagId throws, writeEvent with the whole data and a filter on the tag id
   * (banks default to user).
   */
  function WriteCalls(d: ModeData, sdk: SdkCalls): (calls: seq<SdkCall>)
    ensures 1 <= |calls| <= 2 && calls[0] == ConfigureWrite
    ensures |calls| == 2 <==> WriteProceeds(d, sdk)
  {
    if WriteProceeds(d, sdk) then
      [ConfigureWrite,
       WriteEvent(EffectiveBank(d.memoryBank), d.tagData.value, |d.tagData.value| / 4,
                  Filter(EffectiveBank(d.filterMemoryBank), d.tagId.value, |d.tagId.value| * 4))]
    else [ConfigureWrite]
  }

  /** The stop call cancel makes for a mode, if any. */
  function StopCallFor(mode: Mode): (call: Option<SdkCall>)
    ensures call.None? <==> mode.NoneMode? || mode.OtherMode?
    ensures mode == InventoryMode ==> call == Some(StopInventoryCall)
    ensures AccessMode(mode) ==> call == Some(StopAccess)
  {
    match mode
    case InventoryMode => Some(StopInventoryCall)
    case ReadMode => Some(StopAccess)
    case WriteMode => Some(StopAccess)
    case LockMode => Some(StopAccess)
    case _ => None
  }

  /** The setting event write dispatches, once the antenna configuration went through. */
  function WriteSettingEvents(wasActive: bool, ready: bool, sdk: SdkCalls): seq<Event> {
    if !wasActive && ready && sdk.configOk then [SettingEvent(AntennaSettingMessage)] else []
  }

  function StatusEventsFor(name: Option<string>): seq<Event> {
    if name.Some? then [StatusEvent(name.value)] else []
  }

  /** A configured write writes all of the padded data, word for word, behind the configured prefix. */
  lemma WriteCoversConfiguredData(c: Config, lock: Option<LockField>, sdk: SdkCalls)
    requires WellTyped(c) && sdk.configOk
    requires TagDataKey in c && TagIdKey in c && c[TagIdKey].Str?
    ensures var calls := WriteCalls(Configure(c, lock).data, sdk);
      && |calls| == 2 && calls[1].WriteEvent?
      && 4 * calls[1].wordCount == |calls[1].data|
      && |c[TagDataKey].s| <= |calls[1].data| < |c[TagDataKey].s| + 4
      && calls[1].data[..|c[TagDataKey].s|] == c[TagDataKey].s
      && calls[1].writeFilter.pattern == c[TagIdKey].s
      && calls[1].writeFilter.bitCount == 4 * |c[TagIdKey].s|
  {
    var d := Configure(c, lock).data;
    assert Normalised(d);
  }

  /** A configured read asks for ReadWords(n) words and reports exactly the first n digits of a full answer. */
  lemma ReadRequestsConfiguredLength(c: Config, lock: Option<LockField>, rec: Option<TagRecord>)
    requires WellTyped(c) && ReadLengthKey in c && c[ReadLengthKey].n >= 0
    requires Succeeded(rec, OpRead) && DataOf(rec).Some?
    requires |DataOf(rec).value| == 4 * ReadEventFor(Configure(c, lock).data).wordCount
    ensures var d := Configure(c, lock).data;
      && ReadEventFor(d).wordCount == ReadWords(c[ReadLengthKey].n)
      && Classify(ReadMode, rec, d.readLengthOffset) == Result(DataOf(rec).value[..c[ReadLengthKey].n])
  {
    ReadResultIsRequestedLength(c[ReadLengthKey].n, rec);
  }

  class RFIDScannerThread {
    /** `readers` is non-null. */
    var readersOpen: bool
    var deviceList: Option<seq<ReaderDevice>>
    var rfidReaderDevice: ReaderDevice?
    var tempDisconnected: bool
    var rfidMode: Mode
    var tagId: Option<string>
    var tagData: Option<string>
    var memoryBank: Option<MemoryBank>
    var filterMemoryBank: Option<MemoryBank>
    var readLength: int
    var readLengthOffset: int
    var writeDataOffset: int
    var lockMemory: Option<LockField>
    var active: bool
    /** Everything dispatched to the JS side, in order. */
    var events: seq<Event>
    /** Every reader call made, in order. */
    var sdkCalls: seq<SdkCall>

    function Data(): ModeData
      reads this`tagId, this`tagData, this`memoryBank, this`filterMemoryBank,
            this`readLength, this`readLengthOffset, this`writeDataOffset, this`lockMemory
    {
      ModeData(tagId, tagData, memoryBank, filterMemoryBank, readLength, readLengthOffset, writeDataOffset, lockMemory)
    }

    /** The mode data is as setMode leaves it, and a stored device has a reader. */
    predicate Valid()
      reads this`tagId, this`tagData, this`memoryBank, this`filterMemoryBank,
            this`readLength, this`readLengthOffset, this`writeDataOffset, this`lockMemory,
            this`rfidReaderDevice
    {
      Normalised(Data()) && (rfidReaderDevice != null ==> rfidReaderDevice.hasReader)
    }

    /** getConnectedRFIDReader would return rather than throw. */
    predicate ReaderReady()
      reads this`rfidReaderDevice, rfidReaderDevice
    {
      rfidReaderDevice != null && rfidReaderDevice.connected
    }

    constructor ()
      ensures Valid()
      ensures !readersOpen && deviceList.None? && rfidReaderDevice == null && !tempDisconnected
      ensures rfidMode == NoneMode && Data() == Reset(None) && !active
      ensures events == [] && sdkCalls == []
    {
      readersOpen, deviceList, rfidReaderDevice, tempDisconnected := false, None, null, false;
      rfidMode := NoneMode;
      tagId, tagData, memoryBank, filterMemoryBank := None, None, None, None;
      readLength, readLengthOffset, writeDataOffset, lockMemory := 0, 0, 0, None;
      active := false;
      events, sdkCalls := [], [];
    }

    // -------------------------------------------------------------------------
    // The effect of each operation on `active` and on the reader calls.
    // -------------------------------------------------------------------------

    /**
     * A start operation: nothing while active; a throw with no change when the reader
     * is not ready; otherwise `issued` is called and `active` becomes `nowActive`.
     */
    twostate predicate StartEffect(issued: seq<SdkCall>, nowActive: bool)
      reads this`active, this`sdkCalls
    {
      if old(active) then active && sdkCalls == old(sdkCalls)
      else if !old(ReaderReady()) then !active && sdkCalls == old(sdkCalls)
      else sdkCalls == old(sdkCalls) + issued && active == nowActive
    }

    /** A stop operation: only while active and with a ready reader; `active` clears if the stop returns. */
    twostate predicate StopEffect(stop: SdkCall, sdk: SdkCalls)
      reads this`active, this`sdkCalls
    {
      if old(active) && old(ReaderReady()) then sdkCalls == old(sdkCalls) + [stop] && active == !sdk.stopOk
      else active == old(active) && sdkCalls == old(sdkCalls)
    }

    /** cancel: the stop operation of the current mode. */
    twostate predicate Cancelled(sdk: SdkCalls)
      reads this`active, this`sdkCalls
    {
      var stop := StopCallFor(old(rfidMode));
      if stop.Some? then StopEffect(stop.value, sdk)
      else active == old(active) && sdkCalls == old(sdkCalls)
    }

    /** A trigger press: the start operation of the current mode. */
    twostate predicate Triggered(sdk: SdkCalls)
      reads this`active, this`sdkCalls
    {
      match old(rfidMode)
      case InventoryMode => StartEffect([StartInventoryCall], sdk.actionOk)
      case ReadMode => StartEffect([ReadEventFor(old(Data()))], sdk.actionOk)
      case WriteMode => StartEffect(WriteCalls(old(Data()), sdk), WriteProceeds(old(Data()), sdk))
      case LockMode => StartEffect([LockEventFor(old(Data()))], true)
      case _ => active == old(active) && sdkCalls == old(sdkCalls)
    }

    // -------------------------------------------------------------------------
    // Helpers.
    // -------------------------------------------------------------------------

    /** getConnectedRFIDReader: the stored device when its reader is connected; null stands for the throw. */
    method GetConnectedRFIDReader() returns (reader: ReaderDevice?)
      ensures reader != null <==> ReaderReady()
      ensures reader != null ==> reader == rfidReaderDevice
    {
      if rfidReaderDevice != null && rfidReaderDevice.connected {
        reader := rfidReaderDevice;
      } else {
        reader := null;
      }
    }

    /** resetModeData: everything but the lock field back to null / 0. */
    method ResetModeData()
      modifies this`tagId, this`tagData, this`memoryBank, this`filterMemoryBank,
               this`readLength, this`readLengthOffset, this`writeDataOffset
      ensures Data() == Reset(old(lockMemory))
    {
      tagId, tagData, memoryBank, filterMemoryBank := None, None, None, None;
      readLength, readLengthOffset, writeDataOffset := 0, 0, 0;
    }

    // -------------------------------------------------------------------------
    // Starting and stopping reader actions.
    // -------------------------------------------------------------------------

    method StartInventory(sdk: SdkCalls) returns (ok: bool)
      modifies this`active, this`sdkCalls
      ensures StartEffect([StartInventoryCall], sdk.actionOk)
      ensures ok <==> old(active) || (old(ReaderReady()) && sdk.actionOk)
    {
      if !active {
        var reader := GetConnectedRFIDReader();
        if reader == null {
          ok := false;
          return;
        }
        sdkCalls := sdkCalls + [StartInventoryCall];
        if !sdk.actionOk {
          ok := false;
          return;
        }
        active := true;
      }
      ok := true;
    }

    method StopInventory(sdk: SdkCalls) returns (ok: bool)
      modifies this`active, this`sdkCalls
      ensures StopEffect(StopInventoryCall, sdk)
      ensures ok <==> !old(active) || (old(ReaderReady()) && sdk.stopOk)
    {
      ok := StopWith(StopInventoryCall, sdk);
    }

    /** The stop operations differ only in the call they make. */
    method StopWith(stop: SdkCall, sdk: SdkCalls) returns (ok: bool)
      modifies this`active, this`sdkCalls
      ensures StopEffect(stop, sdk)
      ensures ok <==> !old(active) || (old(ReaderReady()) && sdk.stopOk)
    {
      if active {
        var reader := GetConnectedRFIDReader();
        if reader == null {
          ok := false;
          return;
        }
        sdkCalls := sdkCalls + [stop];
        if !sdk.stopOk {
          ok := false;
          return;
        }
        active := false;
      }
      ok := true;
    }

    /**
     * write: configure the reader for writing, then write the tag data to the tag with
     * the configured id. `active` is set just before writeEvent, so it stays set when
     * writeEvent throws.
     */
    method Write(sdk: SdkCalls) returns (ok: bool)
      modifies this`active, this`sdkCalls, this`events
      ensures StartEffect(WriteCalls(old(Data()), sdk), WriteProceeds(old(Data()), sdk))
      ensures events == old(events) + WriteSettingEvents(old(active), old(ReaderReady()), sdk)
      ensures ok <==> old(active) || (old(ReaderReady()) && WriteProceeds(old(Data()), sdk) && sdk.actionOk)
    {
      if !active {
        var reader := GetConnectedRFIDReader();
        if reader == null {
          ok := false;
          return;
        }
        sdkCalls := sdkCalls + [ConfigureWrite];
        if !sdk.configOk {
          ok := false;
          return;
        }
        events := events + [SettingEvent(AntennaSettingMessage)];
        if tagData.None? || tagId.None? {
          ok := false;
          return;
        }
        var data, id := tagData.value, tagId.value;
        var filter := Filter(EffectiveBank(filterMemoryBank), id, |id| * 4);
        active := true;
        sdkCalls := sdkCalls + [WriteEvent(EffectiveBank(memoryBank), data, |data| / 4, filter)];
        ok := sdk.actionOk;
        return;
      }
      ok := true;
    }

    method StopWrite(sdk: SdkCalls) returns (ok: bool)
      modifies this`active, this`sdkCalls
      ensures StopEffect(StopAccess, sdk)
      ensures ok <==> !old(active) || (old(ReaderReady()) && sdk.stopOk)
    {
      ok := StopWith(StopAccess, sdk);
    }

    /** read: readLength words of the memory bank; `active` is set only once readEvent returns. */
    method Read(sdk: SdkCalls) returns (ok: bool)
      modifies this`active, this`sdkCalls
      ensures StartEffect([ReadEventFor(old(Data()))], sdk.actionOk)
      ensures ok <==> old(active) || (old(ReaderReady()) && sdk.actionOk)
    {
      if !active {
        var reader := GetConnectedRFIDReader();
        if reader == null {
          ok := false;
          return;
        }
        var filter: Option<Filter> := None;
        if tagId.Some? && filterMemoryBank.Some? {
          filter := Some(Filter(filterMemoryBank.value, tagId.value, |tagId.value| * 4));
        }
        sdkCalls := sdkCalls + [ReadEvent(EffectiveBank(memoryBank), readLength, filter)];
        if !sdk.actionOk {
          ok := false;
          return;
        }
        active := true;
      }
      ok := true;
    }

    method StopRead(sdk: SdkCalls) returns (ok: bool)
      modifies this`active, this`sdkCalls
      ensures StopEffect(StopAccess, sdk)
      ensures ok <==> !old(active) || (old(ReaderReady()) && sdk.stopOk)
    {
      ok := StopWith(StopAccess, sdk);
    }

    /** lock: lock the configured field; `active` is set before lockEvent. */
    method Lock(sdk: SdkCalls) returns (ok: bool)
      modifies this`active, this`sdkCalls
      ensures StartEffect([LockEventFor(old(Data()))], true)
      ensures ok <==> old(active) || (old(ReaderReady()) && sdk.actionOk)
    {
      if !active {
        var reader := GetConnectedRFIDReader();
        if reader == null {
          ok := false;
          return;
        }
        var filter: Option<Filter> := None;
        if tagId.Some? && filterMemoryBank.Some? {
          filter := Some(Filter(filterMemoryBank.value, tagId.value, |tagId.value| * 4));
        }
        active := true;
        sdkCalls := sdkCalls + [LockEvent(lockMemory, LockPassword, filter)];
        ok := sdk.actionOk;
        return;
      }
      ok := true;
    }

    method StopLock(sdk: SdkCalls) returns (ok: bool)
      modifies this`active, this`sdkCalls
      ensures StopEffect(StopAccess, sdk)
      ensures ok <==> !old(active) || (old(ReaderReady()) && sdk.stopOk)
    {
      ok := StopWith(StopAccess, sdk);
    }

    /** cancel: stop the current mode's action; its exceptions are caught and logged. */
    method Cancel(sdk: SdkCalls)
      modifies this`active, this`sdkCalls
      ensures Cancelled(sdk)
    {
      var ignored: bool;
      match rfidMode
      case InventoryMode => ignored := StopInventory(sdk);
      case ReadMode => ignored := StopRead(sdk);
      case WriteMode => ignored := StopWrite(sdk);
      case LockMode => ignored := StopLock(sdk);
      case NoneMode =>
      case OtherMode(_) =>
    }

    // -------------------------------------------------------------------------
    // Configuration.
    // -------------------------------------------------------------------------

    /**
     * setMode: log, cancel a running action, reset the mode data and read the new
     * parameters from `config`. A lookup that throws leaves the data as far as it got
     * and the mode unchanged (`ok` false).
     */
    method SetMode(mode: string, config: Config, sdk: SdkCalls) returns (ok: bool)
      requires Valid()
      modifies this`events, this`active, this`sdkCalls, this`rfidMode,
               this`tagId, this`tagData, this`memoryBank, this`filterMemoryBank,
               this`readLength, this`readLengthOffset, this`writeDataOffset, this`lockMemory
      ensures Valid()
      ensures events == old(events) + [StatusEvent(SetModeLogPrefix + mode)]
      ensures Cancelled(sdk)
      ensures Data() == Configure(config, old(lockMemory)).data
      ensures ok <==> WellTyped(config)
      ensures rfidMode == if ok then ParseMode(mode) else old(rfidMode)
      ensures ok ==> ModeName(rfidMode) == mode
    {
      StartSetMode(mode, sdk);
      ok := ApplyMode(mode, config);
    }

    /** The start of setMode: the log event, then a cancel if an action runs. */
    method StartSetMode(mode: string, sdk: SdkCalls)
      modifies this`events, this`active, this`sdkCalls
      ensures events == old(events) + [StatusEvent(SetModeLogPrefix + mode)]
      ensures Cancelled(sdk)
    {
      events := events + [StatusEvent(SetModeLogPrefix + mode)];
      if active {
        Cancel(sdk);
      }
    }

    /** The rest of setMode: reset, read the parameters, and store the mode if nothing threw. */
    method ApplyMode(mode: string, config: Config) returns (ok: bool)
      modifies this`rfidMode, this`tagId, this`tagData, this`memoryBank, this`filterMemoryBank,
               this`readLength, this`readLengthOffset, this`writeDataOffset, this`lockMemory
      ensures Normalised(Data())
      ensures Data() == Configure(config, old(lockMemory)).data
      ensures ok <==> WellTyped(config)
      ensures rfidMode == if ok then ParseMode(mode) else old(rfidMode)
      ensures ok ==> ModeName(rfidMode) == mode
    {
      ResetModeData();
      ok := SetModeData(config);
      if ok {
        rfidMode := ParseMode(mode);
        ModeNameOfParse(mode);
      }
    }

    /** The configuration steps of setMode after the reset, stopping at the first that throws. */
    method SetModeData(config: Config) returns (ok: bool)
      requires Data() == Reset(lockMemory)
      modifies this`tagId, this`tagData, this`memoryBank, this`filterMemoryBank,
               this`readLength, this`readLengthOffset, this`writeDataOffset, this`lockMemory
      ensures Data() == Configure(config, old(lockMemory)).data
      ensures ok == Configure(config, old(lockMemory)).completed
      ensures Normalised(Data()) && (ok <==> WellTyped(config))
    {
      ok := SetBanks(config);
      if !ok {
        return;
      }
      ok := SetTagId(config);
      if !ok {
        return;
      }
      ok := SetTagData(config);
      if !ok {
        return;
      }
      ok := SetReadLength(config);
      if !ok {
        return;
      }
      ok := SetLockField(config);
    }

    /** The memory banks: "user" for an absent key, null for a name the lookup rejects. */
    method SetBanks(config: Config) returns (ok: bool)
      modifies this`memoryBank, this`filterMemoryBank
      ensures Data() == ConfigureBanks(config, old(Data())).data
      ensures ok == ConfigureBanks(config, old(Data())).completed
    {
      var memoryName := BankString(config, MemoryKey);
      if memoryName.Throws? {
        return false;
      }
      var filterName := BankString(config, FilterMemoryKey);
      if filterName.Throws? {
        return false;
      }
      memoryBank := ParseBank(memoryName.value);
      filterMemoryBank := ParseBank(filterName.value);
      ok := true;
    }

    method SetTagId(config: Config) returns (ok: bool)
      modifies this`tagId
      ensures Data() == ConfigureTagId(config, old(Data())).data
      ensures ok == ConfigureTagId(config, old(Data())).completed
    {
      if TagIdKey in config {
        var id := GetString(config, TagIdKey);
        if id.Throws? {
          return false;
        }
        tagId := id.value;
      }
      ok := true;
    }

    /** The write data, padded with '0' to whole words; a null value throws at its length. */
    method SetTagData(config: Config) returns (ok: bool)
      requires Normalised(Data()) && writeDataOffset == 0
      modifies this`tagData, this`writeDataOffset
      ensures Data() == ConfigureTagData(config, old(Data())).data
      ensures ok == ConfigureTagData(config, old(Data())).completed
    {
      if TagDataKey in config {
        var data := GetString(config, TagDataKey);
        if data.Throws? {
          return false;
        }
        tagData := data.value;
        if tagData.None? {
          return false;
        }
        var rest := |tagData.value| % 4;
        if rest > 0 {
          writeDataOffset := 4 - rest;
          tagData := Some(tagData.value + Zeros(writeDataOffset));
        } else {
          assert tagData.value + Zeros(0) == tagData.value;
        }
      }
      ok := true;
    }

    /** The read length in words, rounded up, and how many digits the last word has too many. */
    method SetReadLength(config: Config) returns (ok: bool)
      requires Normalised(Data()) && readLengthOffset == 0
      modifies this`readLength, this`readLengthOffset
      ensures Data() == ConfigureReadLength(config, old(Data())).data
      ensures ok == ConfigureReadLength(config, old(Data())).completed
    {
      if ReadLengthKey in config {
        var n := GetInt(config, ReadLengthKey);
        if n.Throws? {
          return false;
        }
        readLength := TruncDiv(n.value, 4);
        var rest := TruncRem(n.value, 4);
        if rest > 0 {
          readLength := readLength + 1;
          readLengthOffset := 4 - rest;
        }
      }
      ok := true;
    }

    /** The lock field, chosen by the tagData value when lock_memory is present. */
    method SetLockField(config: Config) returns (ok: bool)
      modifies this`lockMemory
      ensures Data() == ConfigureLock(config, old(Data())).data
      ensures ok == ConfigureLock(config, old(Data())).completed
    {
      if LockMemoryKey in config {
        var field := GetString(config, TagDataKey);
        if field.Throws? || field.value.None? {
          return false;
        }
        if field.value.value == LockAccessPasswordName {
          lockMemory := Some(LockAccessPassword);
        } else if field.value.value == LockUserMemoryName {
          lockMemory := Some(LockUserMemory);
        }
      }
      ok := true;
    }

    // -------------------------------------------------------------------------
    // Reader notifications.
    // -------------------------------------------------------------------------

    /**
     * eventReadNotify: while an action runs and the reader is ready, poll up to 100
     * records, dispatch one tag event per result string and then, unless a record
     * threw, all of them as one tags event.
     */
    method EventReadNotify(queue: seq<Option<TagRecord>>)
      modifies this`events
      ensures events == old(events) +
        (if active && ReaderReady() then NotifyEvents(rfidMode, readLengthOffset, Poll(queue)) else [])
    {
      if !active {
        return;
      }
      var reader := GetConnectedRFIDReader();
      if reader == null {
        return;
      }
      DispatchBatch(rfidMode, readLengthOffset, Poll(queue));
    }

    /** The loop of eventReadNotify over one polled batch. */
    method DispatchBatch(mode: Mode, offset: int, batch: seq<Option<TagRecord>>)
      modifies this`events
      ensures events == old(events) + NotifyEvents(mode, offset, batch)
    {
      var tags: seq<string> := [];
      var aborted := false;
      var i := 0;
      while i < |batch| && !aborted
        invariant 0 <= i <= |batch|
        invariant Results(mode, offset, batch[..i]) == BatchResult(tags, aborted)
        invariant events == old(events) + TagEvents(tags)
        decreases |batch| - i
      {
        tags, aborted := DispatchRecord(mode, offset, batch, i, tags, old(events));
        i := i + 1;
      }
      ResultsEnd(mode, offset, batch, i, tags, aborted);
      if !aborted && |tags| > 0 {
        events := events + [TagsEvent(tags)];
      }
    }

    /** One pass of that loop: classify record `i` and dispatch its string, if any, on its own. */
    method DispatchRecord(mode: Mode, offset: int, batch: seq<Option<TagRecord>>, i: nat, tags: seq<string>,
                          ghost start: seq<Event>)
      returns (tagsAfter: seq<string>, aborted: bool)
      requires i < |batch| && Results(mode, offset, batch[..i]) == BatchResult(tags, false)
      requires events == start + TagEvents(tags)
      modifies this`events
      ensures Results(mode, offset, batch[..i + 1]) == BatchResult(tagsAfter, aborted)
      ensures events == start + TagEvents(tagsAfter)
    {
      var o := Classify(mode, batch[i], offset);
      ResultsStep(mode, offset, batch, i, tags);
      tagsAfter, aborted := tags, false;
      if o.Result? {
        AppendAssoc(start, TagEvents(tags), [TagEvent(o.text)]);
        events := events + [TagEvent(o.text)];
        tagsAfter := tags + [o.text];
      } else if o.Aborts? {
        aborted := true;
      }
    }

    /**
     * eventStatusNotify: translate the status; a disconnection marks the device as
     * temporarily disconnected; a trigger press starts the current mode's action (in
     * NONE it clears the tag id), a release cancels it. The status event, if any, is
     * dispatched last, also when the action threw.
     */
    method EventStatusNotify(ev: StatusEventType, sdk: SdkCalls)
      requires Valid()
      modifies this`events, this`active, this`sdkCalls, this`tempDisconnected, this`tagId
      ensures Valid()
      ensures events == old(events)
        + (if ev == HandheldTrigger(Pressed) && old(rfidMode) == WriteMode
           then WriteSettingEvents(old(active), old(ReaderReady()), sdk) else [])
        + StatusEventsFor(StatusName(ev, old(rfidMode)))
      ensures tempDisconnected == (ev.Disconnection? || old(tempDisconnected))
      ensures tagId == if ev == HandheldTrigger(Pressed) && old(rfidMode) == NoneMode then None else old(tagId)
      ensures ev == HandheldTrigger(Pressed) ==> Triggered(sdk)
      ensures ev == HandheldTrigger(Released) ==> Cancelled(sdk)
      ensures !ev.HandheldTrigger? || ev.trigger.OtherTrigger? ==>
                active == old(active) && sdkCalls == old(sdkCalls)
    {
      var name := StatusName(ev, rfidMode);
      StatusAction(ev, sdk);
      if name.Some? {
        events := events + [StatusEvent(name.value)];
      }
    }

    /** What a status event does before its name is dispatched. */
    method StatusAction(ev: StatusEventType, sdk: SdkCalls)
      modifies this`events, this`active, this`sdkCalls, this`tempDisconnected, this`tagId
      ensures events == old(events)
        + (if ev == HandheldTrigger(Pressed) && old(rfidMode) == WriteMode
           then WriteSettingEvents(old(active), old(ReaderReady()), sdk) else [])
      ensures tempDisconnected == (ev.Disconnection? || old(tempDisconnected))
      ensures tagId == if ev == HandheldTrigger(Pressed) && old(rfidMode) == NoneMode then None else old(tagId)
      ensures ev == HandheldTrigger(Pressed) ==> Triggered(sdk)
      ensures ev == HandheldTrigger(Released) ==> Cancelled(sdk)
      ensures !ev.HandheldTrigger? || ev.trigger.OtherTrigger? ==>
                active == old(active) && sdkCalls == old(sdkCalls)
    {
      if ev.Disconnection? {
        tempDisconnected := true;
      } else if ev == HandheldTrigger(Pressed) {
        TriggerPressed(sdk);
      } else if ev == HandheldTrigger(Released) {
        Cancel(sdk);
      }
    }

    /** A trigger press starts the current mode's action; in NONE it forgets the tag id. Exceptions are caught. */
    method TriggerPressed(sdk: SdkCalls)
      modifies this`events, this`active, this`sdkCalls, this`tagId
      ensures Triggered(sdk)
      ensures events == old(events) + (if old(rfidMode) == WriteMode then WriteSettingEvents(old(active), old(ReaderReady()), sdk) else [])
      ensures tagId == if old(rfidMode) == NoneMode then None else old(tagId)
    {
      var ignored: bool;
      match rfidMode
      case InventoryMode => ignored := StartInventory(sdk);
      case ReadMode => ignored := Read(sdk);
      case WriteMode => ignored := Write(sdk);
      case LockMode => ignored := Lock(sdk);
      case NoneMode => tagId := None;
      case OtherMode(_) =>
    }

    // -------------------------------------------------------------------------
    // Life cycle.
    // -------------------------------------------------------------------------

    /** disconnect: disconnect and forget the stored device, dispatching "closed" whatever the reader says. */
    twostate predicate Disconnected(dev: ReaderDevice?, disconnectOk: bool)
      reads this`rfidReaderDevice, this`events, this`tempDisconnected, dev
    {
      if dev == null then
        rfidReaderDevice == null && events == old(events) && tempDisconnected == old(tempDisconnected)
      else
        && rfidReaderDevice == null
        && events == old(events) + [StatusEvent(ClosedStatus)]
        && !tempDisconnected
        && dev.connected == (old(dev.connected) && !disconnectOk)
    }

    method Disconnect(disconnectOk: bool)
      requires Valid()
      modifies this`rfidReaderDevice, this`tempDisconnected, this`events, rfidReaderDevice
      ensures Valid()
      ensures Disconnected(old(rfidReaderDevice), disconnectOk)
    {
      var dev := rfidReaderDevice;
      if dev != null {
        if dev.connected && disconnectOk {
          dev.connected := false;
        }
        events := events + [StatusEvent(ClosedStatus)];
        rfidReaderDevice := null;
        tempDisconnected := false;
      }
    }

    /**
     * connect: nothing when the stored device is connected; otherwise forget it,
     * discover the serial readers and, if there is one with a reader, run the retry
     * loop on the first; store the device only when the loop ends without an error.
     */
    twostate predicate ConnectEffect(discovered: Option<seq<ReaderDevice>>, attempts: seq<Attempt>)
      requires EndsLoop(attempts, 0)
      reads this`readersOpen, this`deviceList, this`rfidReaderDevice, this`events,
            this`tempDisconnected, this`sdkCalls, rfidReaderDevice, FirstDevice(discovered)
    {
      if old(ReaderReady()) then
        && rfidReaderDevice == old(rfidReaderDevice) && events == old(events)
        && tempDisconnected == old(tempDisconnected) && readersOpen == old(readersOpen)
        && deviceList == old(deviceList) && sdkCalls == old(sdkCalls)
        && (forall d | d in FirstDevice(discovered) :: d.connected == old(d.connected))
      else
        var error := ConnectError(discovered, attempts);
        && readersOpen
        && deviceList == (if discovered.Some? then discovered else old(deviceList))
        && rfidReaderDevice == (if error.None? then discovered.value[0] else null)
        && events == old(events)
             + (if old(rfidReaderDevice) != null then [StatusEvent(ClosedStatus)] else [])
             + (if error.None? then [StatusEvent(OpenedStatus)] else [])
        && tempDisconnected == (if error.None? || old(rfidReaderDevice) != null then false else old(tempDisconnected))
        && sdkCalls == old(sdkCalls) + ConnectCalls(discovered, attempts)
        && (error.None? ==> rfidReaderDevice.connected)
        && (forall d | d in FirstDevice(discovered) ::
              d.connected == (old(d.connected) || ConnectOpens(discovered, attempts)))
    }

    method Connect(discovered: Option<seq<ReaderDevice>>, attempts: seq<Attempt>)
      requires Valid()
      requires EndsLoop(attempts, 0)
      modifies this`rfidReaderDevice, this`tempDisconnected, this`events, this`readersOpen,
               this`deviceList, this`sdkCalls, rfidReaderDevice, FirstDevice(discovered)
      ensures Valid()
      ensures ConnectEffect(discovered, attempts)
      ensures old(rfidReaderDevice) != null && old(rfidReaderDevice) !in FirstDevice(discovered) ==>
                old(rfidReaderDevice).connected == old(rfidReaderDevice.connected)
    {
      if rfidReaderDevice != null {
        if rfidReaderDevice.connected {
          return;
        }
        Disconnect(true);
      }
      OpenFirstReader(discovered, attempts);
    }

    /** The part of connect after any stored device is forgotten: discovery and the retry loop. */
    method OpenFirstReader(discovered: Option<seq<ReaderDevice>>, attempts: seq<Attempt>)
      requires Valid() && rfidReaderDevice == null
      requires EndsLoop(attempts, 0)
      modifies this`rfidReaderDevice, this`tempDisconnected, this`events, this`readersOpen,
               this`deviceList, this`sdkCalls, FirstDevice(discovered)
      ensures Valid()
      ensures readersOpen
      ensures deviceList == (if discovered.Some? then discovered else old(deviceList))
      ensures ConnectError(discovered, attempts).None? ==>
        && rfidReaderDevice == discovered.value[0] && rfidReaderDevice.connected
        && events == old(events) + [StatusEvent(OpenedStatus)] && !tempDisconnected
      ensures ConnectError(discovered, attempts).Some? ==>
        rfidReaderDevice == null && events == old(events) && tempDisconnected == old(tempDisconnected)
      ensures sdkCalls == old(sdkCalls) + ConnectCalls(discovered, attempts)
      ensures forall d | d in FirstDevice(discovered) ::
                d.connected == (old(d.connected) || ConnectOpens(discovered, attempts))
    {
      readersOpen := true;
      if discovered.Some? {
        deviceList := discovered;
      }
      if discovered.None? || |discovered.value| == 0 {
        return;
      }
      var first := discovered.value[0];
      if !first.hasReader {
        return;
      }
      var err := RetryConnect(first, attempts);
      assert err == ConnectError(discovered, attempts);
      if err.None? {
        rfidReaderDevice := first;
        tempDisconnected := false;
        events := events + [StatusEvent(OpenedStatus)];
      }
    }

    /** The retry loop of connect on the first device's reader. */
    method RetryConnect(first: ReaderDevice, attempts: seq<Attempt>) returns (err: Option<string>)
      requires EndsLoop(attempts, 0)
      modifies this`sdkCalls, first
      ensures err == Run(attempts).err
      ensures sdkCalls == old(sdkCalls) + AttemptCalls(attempts[..Run(attempts).used])
      ensures first.connected == (old(first.connected) || LoopOpens(attempts))
      ensures err.None? ==> first.connected
    {
      err := None;
      var i := 0;
      var done := false;
      while !done
        invariant 0 <= i <= |attempts|
        invariant !done ==> EndsLoop(attempts, i) && RunFrom(attempts, i, err) == Run(attempts)
        invariant done ==> LoopEnd(err, i) == Run(attempts)
        invariant sdkCalls == old(sdkCalls) + AttemptCalls(attempts[..i])
        invariant !done ==> first.connected == old(first.connected)
        invariant done ==> 0 < i && first.connected == (old(first.connected) || attempts[i - 1].Opened?)
        invariant done && err.None? ==> first.connected
        decreases |attempts| - i
      {
        var a := attempts[i];
        AttemptCallsSnoc(attempts[..i], a);
        assert attempts[..i + 1] == attempts[..i] + [a];
        done, err := ConnectAttempt(first, a, err);
        i := i + 1;
      }
    }

    /** One pass through the loop body: whether it breaks the loop, and the error after it. */
    method ConnectAttempt(first: ReaderDevice, a: Attempt, err: Option<string>) returns (done: bool, errAfter: Option<string>)
      modifies this`sdkCalls, first
      ensures done == !Retries(a)
      ensures errAfter == if done then BreakError(a, err) else ErrorAfter(a, err)
      ensures sdkCalls == old(sdkCalls) + AttemptCalls([a])
      ensures first.connected == (a.Opened? || old(first.connected))
    {
      sdkCalls := sdkCalls + [ReaderConnect];
      done, errAfter := true, err;
      if a.Opened? {
        first.connected := true;
      } else if a.RegionNotConfigured? {
        if a.configFailure.Some? {
          errAfter := Some(RegionErrorPrefix + a.configFailure.value);
        } else {
          var found, index := FindRegion(a.regions, PreferredRegion);
          if found {
            sdkCalls := sdkCalls + [SetRegion(PreferredRegion)];
            done := false;
          } else {
            errAfter := Some(RegionNotFound);
          }
        }
      } else if a.PasswordError? {
        errAfter := Some(PasswordErrorText);
      } else if a.BatchModeInProgress? {
        errAfter := Some(BatchModeText);
      } else if a.OperationFailure? {
        errAfter := Some(a.result);
      } else if a.InvalidUsage? {
        errAfter := Some(InvalidUsagePrefix + a.message);
      } else {
        errAfter := a.exceptionMessage;
        done := false;
      }
    }

    /**
     * init: discover the bluetooth readers, reset the session flags, the mode and the
     * tag id, then connect.
     */
    method Init(bluetooth: Option<seq<ReaderDevice>>, discovered: Option<seq<ReaderDevice>>, attempts: seq<Attempt>)
      requires Valid()
      requires EndsLoop(attempts, 0)
      modifies this`rfidReaderDevice, this`tempDisconnected, this`events, this`readersOpen,
               this`deviceList, this`sdkCalls, this`active, this`rfidMode, this`tagId,
               rfidReaderDevice, FirstDevice(discovered)
      ensures Valid()
      ensures readersOpen && !active && rfidMode == NoneMode && tagId.None? && !tempDisconnected
      ensures old(ReaderReady()) ==>
        && rfidReaderDevice == old(rfidReaderDevice) && events == old(events) && sdkCalls == old(sdkCalls)
        && deviceList == (if bluetooth.Some? then bluetooth else old(deviceList))
        && (forall d | d in FirstDevice(discovered) :: d.connected == old(d.connected))
      ensures !old(ReaderReady()) ==>
        var error := ConnectError(discovered, attempts);
        && deviceList == (if discovered.Some? then discovered else if bluetooth.Some? then bluetooth else old(deviceList))
        && rfidReaderDevice == (if error.None? then discovered.value[0] else null)
        && events == old(events)
             + (if old(rfidReaderDevice) != null then [StatusEvent(ClosedStatus)] else [])
             + (if error.None? then [StatusEvent(OpenedStatus)] else [])
        && sdkCalls == old(sdkCalls) + ConnectCalls(discovered, attempts)
        && (error.None? ==> rfidReaderDevice.connected)
        && (forall d | d in FirstDevice(discovered) ::
              d.connected == (old(d.connected) || ConnectOpens(discovered, attempts)))
      ensures old(rfidReaderDevice) != null && old(rfidReaderDevice) !in FirstDevice(discovered) ==>
                old(rfidReaderDevice).connected == old(rfidReaderDevice.connected)
    {
      ResetSession(bluetooth);
      Connect(discovered, attempts);
    }

    /** The first half of init: open the readers and reset the session flags, the mode and the tag id. */
    method ResetSession(bluetooth: Option<seq<ReaderDevice>>)
      modifies this`readersOpen, this`deviceList, this`tempDisconnected, this`active, this`rfidMode, this`tagId
      ensures readersOpen && !active && rfidMode == NoneMode && tagId.None? && !tempDisconnected
      ensures deviceList == (if bluetooth.Some? then bluetooth else old(deviceList))
    {
      readersOpen := true;
      if bluetooth.Some? {
        deviceList := bluetooth;
      }
      tempDisconnected := false;
      active := false;
      rfidMode := NoneMode;
      tagId := None;
    }

    /**
     * reconnect: when the stored device was lost (tempDisconnected) and its reader is
     * not connected, reconnect it; on success clear the flag and dispatch "opened".
     */
    method Reconnect(reconnectOk: bool)
      modifies this`tempDisconnected, this`events, rfidReaderDevice
      ensures var acts := old(rfidReaderDevice) != null && old(tempDisconnected) && !old(rfidReaderDevice.connected);
        if acts && reconnectOk then
          !tempDisconnected && events == old(events) + [StatusEvent(OpenedStatus)] && rfidReaderDevice.connected
        else
          tempDisconnected == old(tempDisconnected) && events == old(events)
          && (rfidReaderDevice != null ==> rfidReaderDevice.connected == old(rfidReaderDevice.connected))
    {
      if rfidReaderDevice != null && tempDisconnected && !rfidReaderDevice.connected && reconnectOk {
        rfidReaderDevice.connected := true;
        tempDisconnected := false;
        events := events + [StatusEvent(OpenedStatus)];
      }
    }

    /** shutdown: disconnect, release the readers and forget the device list. */
    method Shutdown(disconnectOk: bool)
      requires Valid()
      modifies this`rfidReaderDevice, this`tempDisconnected, this`events, this`readersOpen,
               this`deviceList, rfidReaderDevice
      ensures Valid()
      ensures Disconnected(old(rfidReaderDevice), disconnectOk)
      ensures !readersOpen && deviceList.None?
    {
      if rfidReaderDevice != null {
        Disconnect(disconnectOk);
      }
      readersOpen := false;
      deviceList := None;
    }

    /** onHostResume: connect again, if the readers are still open. */
    method OnHostResume(discovered: Option<seq<ReaderDevice>>, attempts: seq<Attempt>)
      requires Valid()
      requires EndsLoop(attempts, 0)
      modifies this`rfidReaderDevice, this`tempDisconnected, this`events, this`readersOpen,
               this`deviceList, this`sdkCalls, rfidReaderDevice, FirstDevice(discovered)
      ensures Valid()
      ensures old(readersOpen) ==> ConnectEffect(discovered, attempts)
      ensures !old(readersOpen) ==>
        && rfidReaderDevice == old(rfidReaderDevice) && events == old(events) && !readersOpen
        && tempDisconnected == old(tempDisconnected) && deviceList == old(deviceList) && sdkCalls == old(sdkCalls)
        && (forall d | d in FirstDevice(discovered) :: d.connected == old(d.connected))
      ensures old(rfidReaderDevice) != null && old(rfidReaderDevice) !in FirstDevice(discovered) ==>
                old(rfidReaderDevice).connected == old(rfidReaderDevice.connected)
    {
      if readersOpen {
        Connect(discovered, attempts);
      }
    }

    /** onHostPause: cancel, then disconnect. */
    method OnHostPause(sdk: SdkCalls, disconnectOk: bool)
      requires Valid()
      modifies this`active, this`sdkCalls, this`rfidReaderDevice, this`tempDisconnected, this`events, rfidReaderDevice
      ensures Valid()
      ensures Cancelled(sdk)
      ensures Disconnected(old(rfidReaderDevice), disconnectOk)
    {
      Cancel(sdk);
      Disconnect(disconnectOk);
    }

    /** onHostDestroy (and onCatalystInstanceDestroy): cancel, then shut down. */
    method OnHostDestroy(sdk: SdkCalls, disconnectOk: bool)
      requires Valid()
      modifies this`active, this`sdkCalls, this`rfidReaderDevice, this`tempDisconnected, this`events,
               this`readersOpen, this`deviceList, rfidReaderDevice
      ensures Valid()
      ensures Cancelled(sdk)
      ensures Disconnected(old(rfidReaderDevice), disconnectOk)
      ensures !readersOpen && deviceList.None?
    {
      Cancel(sdk);
      Shutdown(disconnectOk);
    }
  }
}
