# Zebra RFID bridge: session controller and callback registry

This project models the two stateful parts of a React Native bridge to Zebra RFID handheld readers.

The first part is the native session controller, `RFIDScannerThread`. It holds:

- the connected reader device;
- the operating mode (none, inventory, read, write, lock, or any other string);
- the parameters `setMode` derives from a key/value configuration;
- the `active` flag of the running reader action;
- the `tempDisconnected` flag.

It reacts to trigger presses and releases, to tag reads and to connection events. It dispatches status, tag, tag-batch and setting events to the JS side.

The second part is the JS-side `RFIDScanner`. It keeps a map from event name to an ordered list of callbacks, and every handler calls the callbacks of its event in registration order.

The Zebra reader library is kept abstract:

- A device is a `ReaderDevice` object. Its `connected` field is changed by connect, disconnect and reconnect.
- Every call the controller makes on the reader is appended to the `sdkCalls` log, as a `SdkCall` value carrying its parameters.
- Whether a reader call throws is an input of the operation. It arrives as `SdkCalls(configOk, actionOk, stopOk)` for the start and stop actions, as a list of `Attempt` outcomes for the connect retry loop, and as a `bool` for disconnect and reconnect.
- An exception that escapes a controller operation is the operation's `ok` result being false. Events dispatched to JS are appended to the `events` log.

Module layout:

- `common.dfy`: `Option` and `Min`.
- `events.dfy`: the events dispatched to JS.
- `mode_config.dfy`: mode names, banks and lock fields, write-data padding, read-length rounding, and the configuration steps of `setMode` as functions.
- `tag_results.dfy`: the classification of one polled tag record and of one polled batch.
- `status.dfy`: the translation of status notifications into status strings.
- `reader.dfy`: the reader device and the reader-call log.
- `connection.dfy`: the connect retry loop as a function, plus the region search.
- `scanner_thread.dfy`: the controller class.
- `rfid_scanner.dfy`: the JS callback registry class.

Four behaviours of the code are modelled as written:

- The lock field is chosen by the value under `tagData`, not by `lock_memory`.
- A generic exception in the connect loop does not end the loop, and its message stays the pending error. A later successful connect therefore still counts as a failure, and leaves that reader connected without storing its device; `Connection.StaleMessageFailsConnect` shows this.
- `removeon` splices inside `forEach`, so the entry right after each removed one is never looked at. Adjacent duplicates survive; `RFIDScannerJs.AdjacentDuplicateSurvives` shows this.
- A failure status is reported as its name with `_` replaced by a space, and nothing else. A locked tag therefore reports the library's status name with spaces; the code has no shorter text for it.

## Model

Java paths are relative to `android/src/main/java/com/headuck/reactnativezebrarfid/`, written out in full below.

| member | source | states |
|---|---|---|
| ModeConfig.ParseMode | android/src/main/java/com/headuck/reactnativezebrarfid/RFIDScannerThread.java:22-26 | a mode string is one of the five mode keys exactly when it does not become `OtherMode` |
| ModeConfig.ModeNameOfParse | android/src/main/java/com/headuck/reactnativezebrarfid/RFIDScannerThread.java:446 | storing any mode string as a `Mode` and naming it again gives back the same string, unknown strings included |
| ModeConfig.ParseOfModeName | android/src/main/java/com/headuck/reactnativezebrarfid/RFIDScannerThread.java:22-26 | every mode a string can produce is recovered from its name |
| ModeConfig.ParseBank | android/src/main/java/com/headuck/reactnativezebrarfid/RFIDScannerThread.java:401-411 | a bank is found only for its own name; null or unknown names leave the bank null |
| ModeConfig.ParseBankName | android/src/main/java/com/headuck/reactnativezebrarfid/RFIDScannerThread.java:401-411 | every bank's name parses back to that bank |
| ModeConfig.EffectiveBank | android/src/main/java/com/headuck/reactnativezebrarfid/RFIDScannerThread.java:530-534 | a null bank field is used as USER, a set one as itself |
| ModeConfig.LockFieldNamed | android/src/main/java/com/headuck/reactnativezebrarfid/RFIDScannerThread.java:436-443 | the access-password field is picked exactly for "lock_password", the user-memory field exactly for "lock_user_memory" |
| ModeConfig.PadCount | android/src/main/java/com/headuck/reactnativezebrarfid/RFIDScannerThread.java:418-420 | the number of '0's appended is in [0,3], equals (4 - len%4) % 4, and makes the length a multiple of 4 |
| ModeConfig.Zeros | android/src/main/java/com/headuck/reactnativezebrarfid/RFIDScannerThread.java:421 | `StringUtils.repeat("0", k)` has length k and every character '0' |
| ModeConfig.PadToWords | android/src/main/java/com/headuck/reactnativezebrarfid/RFIDScannerThread.java:416-424 | padded data starts with the input, adds fewer than 4 characters, all '0', and has a length that is a multiple of 4 |
| ModeConfig.PadToWordsIdempotent | android/src/main/java/com/headuck/reactnativezebrarfid/RFIDScannerThread.java:416-424 | padding already padded data changes nothing |
| ModeConfig.ReadLengthRounding | android/src/main/java/com/headuck/reactnativezebrarfid/RFIDScannerThread.java:425-433 | for n >= 0, with Java's truncating division, readLength is ceil(n/4) and readLengthOffset is (4 - n%4) % 4; the words read, less the offset, are exactly n digits |
| ModeConfig.ReadLengthNegative | android/src/main/java/com/headuck/reactnativezebrarfid/RFIDScannerThread.java:425-433 | a negative read length keeps Java's truncated quotient (at most 0) and sets no offset |
| ModeConfig.GetString | android/src/main/java/com/headuck/reactnativezebrarfid/RFIDScannerThread.java:413-415 | a string lookup throws exactly on a missing key or a numeric value; it returns the stored string, or null for a null value |
| ModeConfig.GetInt | android/src/main/java/com/headuck/reactnativezebrarfid/RFIDScannerThread.java:426-427 | an int lookup succeeds exactly on a present numeric value, and returns that number |
| ModeConfig.Reset | android/src/main/java/com/headuck/reactnativezebrarfid/RFIDScannerThread.java:91-99 | the reset data satisfies the invariant setMode keeps (offsets below 4, whole-word data) and keeps the lock field |
| ModeConfig.ConfigureBanks | android/src/main/java/com/headuck/reactnativezebrarfid/RFIDScannerThread.java:389-411 | an absent bank key means "user"; a numeric value throws before either bank is set; nothing else changes |
| ModeConfig.ConfigureTagId | android/src/main/java/com/headuck/reactnativezebrarfid/RFIDScannerThread.java:413-415 | tagId is taken from the key when present (null for a null value); a numeric value throws and leaves it |
| ModeConfig.ConfigureTagData | android/src/main/java/com/headuck/reactnativezebrarfid/RFIDScannerThread.java:416-424 | a string tagData is stored padded, with writeDataOffset set to the padding; a null value is stored and then throws; an absent key changes nothing |
| ModeConfig.ConfigureReadLength | android/src/main/java/com/headuck/reactnativezebrarfid/RFIDScannerThread.java:425-433 | a numeric read_length sets readLength and readLengthOffset by the rounding; anything else throws |
| ModeConfig.ConfigureLock | android/src/main/java/com/headuck/reactnativezebrarfid/RFIDScannerThread.java:435-444 | with lock_memory present, the field is chosen from the tagData value; a missing, null or numeric tagData throws; an unmatched name keeps the old field |
| ModeConfig.Configure | android/src/main/java/com/headuck/reactnativezebrarfid/RFIDScannerThread.java:389-444 | the parameters are normalised; setMode completes exactly when the configuration is well typed; it states the banks with their "user" default, tagId, the padded tagData with its offset, the read length and offset, and the lock field, which is kept unless the switch matched |
| Events.TagEventsInOrder | android/src/main/java/com/headuck/reactnativezebrarfid/RFIDScannerThread.java:808-811 | one TagEvent per result string, in order |
| TagResults.SpaceUnderscores | android/src/main/java/com/headuck/reactnativezebrarfid/RFIDScannerThread.java:732 | `replaceAll("_", " ")` keeps the length and turns each '_' into ' ' and nothing else |
| TagResults.SpaceUnderscoresLeavesNone | android/src/main/java/com/headuck/reactnativezebrarfid/RFIDScannerThread.java:732 | the result contains no '_', and replacing again changes nothing |
| TagResults.Classify | android/src/main/java/com/headuck/reactnativezebrarfid/RFIDScannerThread.java:721-807 | the result of one record per mode: INVENTORY gives the id, and a null record throws; NONE and unknown modes give nothing; WRITE always gives a string; in WRITE, READ and LOCK a null record and a null op code give that mode's fixed failure texts, a failure status gives its text with spaces, and a wrong op code gives the FAIL text; a READ or LOCK success gives the data less the offset, with the exact cases that give nothing or throw |
| TagResults.ReadResultIsRequestedLength | android/src/main/java/com/headuck/reactnativezebrarfid/RFIDScannerThread.java:760-763 | a successful read of ceil(n/4) words reports exactly the first n digits, and the data untouched when n is a whole number of words |
| TagResults.Poll | android/src/main/java/com/headuck/reactnativezebrarfid/RFIDScannerThread.java:715 | one poll takes at most 100 records from the front of the queue, and all of them when there are at most 100 |
| TagResults.Results | android/src/main/java/com/headuck/reactnativezebrarfid/RFIDScannerThread.java:718-812 | the loop gathers at most one string per record |
| TagResults.ResultsAfterAbort | android/src/main/java/com/headuck/reactnativezebrarfid/RFIDScannerThread.java:817-819 | once a record throws, the later records change nothing |
| TagResults.ClassifiedTextsSnoc | android/src/main/java/com/headuck/reactnativezebrarfid/RFIDScannerThread.java:718-812 | the front-to-back reference of the result strings extends by one record at the end |
| TagResults.ResultsWithoutAbort | android/src/main/java/com/headuck/reactnativezebrarfid/RFIDScannerThread.java:718-812 | with no record that throws, the loop's strings are the reference's strings, and the loop is not cut short |
| TagResults.ResultsBeforeFirstAbort | android/src/main/java/com/headuck/reactnativezebrarfid/RFIDScannerThread.java:718-819 | the batch is the strings of the records before the first one that throws, and it is cut short exactly when such a record exists |
| TagResults.ResultsStep | android/src/main/java/com/headuck/reactnativezebrarfid/RFIDScannerThread.java:718-812 | one more record extends the loop's strings by its result, cuts the batch short when it throws, and leaves it otherwise; a result adds one TagEvent at the end |
| TagResults.ResultsEnd | android/src/main/java/com/headuck/reactnativezebrarfid/RFIDScannerThread.java:813-819 | when the loop has seen every record, or a record threw, the events dispatched are the single TagEvents followed by the TagsEvent exactly when nothing threw and some string was gathered |
| TagResults.InventoryReportsEveryId | android/src/main/java/com/headuck/reactnativezebrarfid/RFIDScannerThread.java:724-726 | in INVENTORY, non-null records report every id, in order |
| TagResults.WriteReportsEveryRecord | android/src/main/java/com/headuck/reactnativezebrarfid/RFIDScannerThread.java:727-750 | in WRITE, every record reports exactly one string and none throws |
| TagResults.SilentModesDispatchNothing | android/src/main/java/com/headuck/reactnativezebrarfid/RFIDScannerThread.java:721-723 | NONE and unknown modes dispatch no event at all |
| TagResults.NotifyEventsShape | android/src/main/java/com/headuck/reactnativezebrarfid/RFIDScannerThread.java:808-815 | single TagEvents come first, in order; at most one TagsEvent follows, last, carrying exactly those strings; it is present exactly when nothing threw and some string was gathered |
| StatusEvents.NatToString | android/src/main/java/com/headuck/reactnativezebrarfid/RFIDScannerThread.java:843 | the decimal rendering of a battery level is a non-empty string of digits with no leading zero, whose digits denote the level |
| StatusEvents.NatToStringUnique | android/src/main/java/com/headuck/reactnativezebrarfid/RFIDScannerThread.java:843 | any digit string without a leading zero that denotes the level is exactly its rendering |
| StatusEvents.StatusName | android/src/main/java/com/headuck/reactnativezebrarfid/RFIDScannerThread.java:833-888 | a status string is dispatched exactly for the five reader statuses and for trigger press and release in WRITE; it states each string ("inventoryStart", "inventoryStop", "disconnect", "batchMode…", "battery <level>") |
| Connection.BreakError | android/src/main/java/com/headuck/reactnativezebrarfid/RFIDScannerThread.java:183-222 | every outcome that breaks the loop, other than success, sets an error |
| Connection.RunFrom | android/src/main/java/com/headuck/reactnativezebrarfid/RFIDScannerThread.java:157-227 | the loop consumes at least one attempt and no more than it is given |
| Connection.LastMessageCons | android/src/main/java/com/headuck/reactnativezebrarfid/RFIDScannerThread.java:224-226 | an attempt that goes round again passes its message on as the pending error |
| Connection.RunFromOutcome | android/src/main/java/com/headuck/reactnativezebrarfid/RFIDScannerThread.java:157-227 | from any attempt before the first one that breaks the loop, the loop ends just after that attempt, with its error or the last pending message |
| Connection.RunOutcome | android/src/main/java/com/headuck/reactnativezebrarfid/RFIDScannerThread.java:157-227 | the loop ends after the first attempt that breaks it; the error is that attempt's error or, on success, the message of the last generic exception before it |
| Connection.RunSucceedsIff | android/src/main/java/com/headuck/reactnativezebrarfid/RFIDScannerThread.java:231 | the loop reports success exactly when it breaks on a success with no stale message |
| Connection.RunSucceedsOpens | android/src/main/java/com/headuck/reactnativezebrarfid/RFIDScannerThread.java:157-231 | a loop that reports success broke on a connect that returned, so the reader is connected |
| Connection.StaleMessageFailsConnect | android/src/main/java/com/headuck/reactnativezebrarfid/RFIDScannerThread.java:224-231 | a generic exception followed by a success ends with that exception's message as the error, although the loop broke on a connect that returned |
| Connection.RegionRetryThenOpened | android/src/main/java/com/headuck/reactnativezebrarfid/RFIDScannerThread.java:183-199 | a region-not-configured failure with "HKG" supported is retried once, and then the connect succeeds |
| Connection.RegionMissingFails | android/src/main/java/com/headuck/reactnativezebrarfid/RFIDScannerThread.java:200-203 | without "HKG" the loop stops at once with "Region not found" |
| Connection.FindRegion | android/src/main/java/com/headuck/reactnativezebrarfid/RFIDScannerThread.java:190-199 | the search finds a region exactly when one with the code exists, and returns the first such index |
| Connection.AttemptCallsSnoc | android/src/main/java/com/headuck/reactnativezebrarfid/RFIDScannerThread.java:157-207 | the reader calls of consecutive attempts concatenate |
| Connection.ConnectError | android/src/main/java/com/headuck/reactnativezebrarfid/RFIDScannerThread.java:151-243 | connect succeeds only with a discovered first device that has a reader |
| Connection.ConnectSucceedsOpens | android/src/main/java/com/headuck/reactnativezebrarfid/RFIDScannerThread.java:151-237 | a successful connect has connected the first discovered device's reader |
| ScannerThread.AccessFilterFor | android/src/main/java/com/headuck/reactnativezebrarfid/RFIDScannerThread.java:597-607 | read and lock filter on the tag id exactly when both the id and the filter bank are set, with 4 bits per digit |
| ScannerThread.WriteCalls | android/src/main/java/com/headuck/reactnativezebrarfid/RFIDScannerThread.java:519-565 | a write always configures the reader first, and issues writeEvent only when the configuration returned and tagData and tagId are set |
| ScannerThread.StopCallFor | android/src/main/java/com/headuck/reactnativezebrarfid/RFIDScannerThread.java:462-496 | cancel stops inventory with Inventory.stop and the three access modes with stopAccess, and does nothing in NONE or an unknown mode |
| ScannerThread.WriteCoversConfiguredData | android/src/main/java/com/headuck/reactnativezebrarfid/RFIDScannerThread.java:536-558 | after setMode, a write writes the whole padded data, with a word count of a quarter of its length, starting with the configured data, filtered on the configured tag id at 4 bits per digit |
| ScannerThread.ReadRequestsConfiguredLength | android/src/main/java/com/headuck/reactnativezebrarfid/RFIDScannerThread.java:586 | after setMode with read_length n >= 0, a read asks for ceil(n/4) words, and a full answer reports exactly n digits |
| ScannerThread.RFIDScannerThread.constructor | android/src/main/java/com/headuck/reactnativezebrarfid/RFIDScannerThread.java:42-66 | a new controller has no device, readers or devices, mode NONE, cleared mode data and flags, and has dispatched and called nothing |
| ScannerThread.RFIDScannerThread.GetConnectedRFIDReader | android/src/main/java/com/headuck/reactnativezebrarfid/RFIDScannerThread.java:77-89 | the reader is returned exactly when the stored device is connected; otherwise the call throws |
| ScannerThread.RFIDScannerThread.ResetModeData | android/src/main/java/com/headuck/reactnativezebrarfid/RFIDScannerThread.java:91-99 | the mode data becomes the reset data, with the lock field kept |
| ScannerThread.RFIDScannerThread.StartInventory | android/src/main/java/com/headuck/reactnativezebrarfid/RFIDScannerThread.java:501-507 | no effect while active; throws with no change when the reader is not ready; otherwise performs an inventory and becomes active if it returned |
| ScannerThread.RFIDScannerThread.StopWith | android/src/main/java/com/headuck/reactnativezebrarfid/RFIDScannerThread.java:509-515 | the shared stop: only while active with a ready reader, it calls the stop, and active clears if the stop returned |
| ScannerThread.RFIDScannerThread.StopInventory | android/src/main/java/com/headuck/reactnativezebrarfid/RFIDScannerThread.java:509-515 | with no effect while idle; throws with no change when not ready; calls Inventory.stop and clears active if it returns |
| ScannerThread.RFIDScannerThread.Write | android/src/main/java/com/headuck/reactnativezebrarfid/RFIDScannerThread.java:519-565 | no effect while active; throws when not ready; configures the reader and dispatches the antenna setting event; fails before setting active on a null tagData or tagId; otherwise becomes active before writeEvent, so it stays active when writeEvent throws |
| ScannerThread.RFIDScannerThread.StopWrite | android/src/main/java/com/headuck/reactnativezebrarfid/RFIDScannerThread.java:567-573 | as the other stops, with stopAccess |
| ScannerThread.RFIDScannerThread.Read | android/src/main/java/com/headuck/reactnativezebrarfid/RFIDScannerThread.java:577-615 | no effect while active; throws when not ready; issues readEvent for readLength words of the configured bank with the optional filter; becomes active only if it returned |
| ScannerThread.RFIDScannerThread.StopRead | android/src/main/java/com/headuck/reactnativezebrarfid/RFIDScannerThread.java:616-622 | as the other stops, with stopAccess |
| ScannerThread.RFIDScannerThread.Lock | android/src/main/java/com/headuck/reactnativezebrarfid/RFIDScannerThread.java:626-654 | no effect while active; throws when not ready; becomes active, then issues lockEvent with the lock field, password 0 and the optional filter |
| ScannerThread.RFIDScannerThread.StopLock | android/src/main/java/com/headuck/reactnativezebrarfid/RFIDScannerThread.java:656-662 | as the other stops, with stopAccess |
| ScannerThread.RFIDScannerThread.Cancel | android/src/main/java/com/headuck/reactnativezebrarfid/RFIDScannerThread.java:462-496 | runs the current mode's stop, so a cancel while idle issues no stop |
| ScannerThread.RFIDScannerThread.SetMode | android/src/main/java/com/headuck/reactnativezebrarfid/RFIDScannerThread.java:367-460 | dispatches the log event; cancels first when active; leaves exactly the mode data `Configure` gives from the old lock field; completes exactly for a well-typed configuration, and then stores the mode string unchanged |
| ScannerThread.RFIDScannerThread.StartSetMode | android/src/main/java/com/headuck/reactnativezebrarfid/RFIDScannerThread.java:367-371 | the log event is dispatched, then the current action is cancelled if active |
| ScannerThread.RFIDScannerThread.ApplyMode | android/src/main/java/com/headuck/reactnativezebrarfid/RFIDScannerThread.java:372-446 | the mode data becomes `Configure`'s data from the old lock field; the mode string is stored, unchanged, exactly when the configuration is well typed |
| ScannerThread.RFIDScannerThread.SetModeData | android/src/main/java/com/headuck/reactnativezebrarfid/RFIDScannerThread.java:389-444 | the configuration steps after the reset produce `Configure`'s data and completion |
| ScannerThread.RFIDScannerThread.SetBanks | android/src/main/java/com/headuck/reactnativezebrarfid/RFIDScannerThread.java:389-411 | the bank step in place, as `ConfigureBanks` |
| ScannerThread.RFIDScannerThread.SetTagId | android/src/main/java/com/headuck/reactnativezebrarfid/RFIDScannerThread.java:413-415 | the tag-id step in place, as `ConfigureTagId` |
| ScannerThread.RFIDScannerThread.SetTagData | android/src/main/java/com/headuck/reactnativezebrarfid/RFIDScannerThread.java:416-424 | the padding step in place, as `ConfigureTagData` |
| ScannerThread.RFIDScannerThread.SetReadLength | android/src/main/java/com/headuck/reactnativezebrarfid/RFIDScannerThread.java:425-433 | the read-length step in place, as `ConfigureReadLength` |
| ScannerThread.RFIDScannerThread.SetLockField | android/src/main/java/com/headuck/reactnativezebrarfid/RFIDScannerThread.java:435-444 | the lock switch in place, as `ConfigureLock` |
| ScannerThread.RFIDScannerThread.EventReadNotify | android/src/main/java/com/headuck/reactnativezebrarfid/RFIDScannerThread.java:709-825 | does nothing unless active with a ready reader; otherwise dispatches exactly the events `NotifyEvents` gives for one poll of at most 100 records |
| ScannerThread.RFIDScannerThread.DispatchBatch | android/src/main/java/com/headuck/reactnativezebrarfid/RFIDScannerThread.java:716-815 | the loop over the polled records dispatches exactly the events `NotifyEvents` gives for the batch |
| ScannerThread.RFIDScannerThread.DispatchRecord | android/src/main/java/com/headuck/reactnativezebrarfid/RFIDScannerThread.java:718-812 | one pass of the loop extends the loop's strings as `Results` does and dispatches the new string, if any, on its own |
| ScannerThread.RFIDScannerThread.EventStatusNotify | android/src/main/java/com/headuck/reactnativezebrarfid/RFIDScannerThread.java:828-898 | a disconnection sets tempDisconnected; a press starts the current mode's action; a press in NONE clears tagId; a release cancels; the translated status is dispatched last, after write's setting event, even when the action threw; other statuses change no flag |
| ScannerThread.RFIDScannerThread.StatusAction | android/src/main/java/com/headuck/reactnativezebrarfid/RFIDScannerThread.java:837-886 | a disconnection sets tempDisconnected, a press runs `TriggerPressed`, a release cancels, and any other status changes no flag |
| ScannerThread.RFIDScannerThread.TriggerPressed | android/src/main/java/com/headuck/reactnativezebrarfid/RFIDScannerThread.java:848-879 | a press starts inventory, read, write or lock by the mode, with exceptions caught; in NONE it clears tagId; only write dispatches its setting event |
| ScannerThread.RFIDScannerThread.Disconnect | android/src/main/java/com/headuck/reactnativezebrarfid/RFIDScannerThread.java:286-324 | with a device, it always dispatches "closed" and clears the device and tempDisconnected, and the reader is disconnected if the call returned; with no device it does nothing |
| ScannerThread.RFIDScannerThread.Connect | android/src/main/java/com/headuck/reactnativezebrarfid/RFIDScannerThread.java:133-250 | when the stored device is connected, nothing changes, its connected state included; otherwise it disconnects a stale device, records the discovery, and runs the retry loop; on success it stores the first device, clears tempDisconnected and dispatches "opened" once, and the device is connected; the first device's reader is connected afterwards exactly when it was before or the loop broke on a connect that returned, stored or not; a stale device that was not rediscovered keeps its connected state, and no other discovered device is touched |
| ScannerThread.RFIDScannerThread.OpenFirstReader | android/src/main/java/com/headuck/reactnativezebrarfid/RFIDScannerThread.java:139-247 | with no stored device: records the discovery; connects only a discovered first device with a reader; on success stores it connected, clears tempDisconnected and dispatches "opened"; on failure stores nothing and dispatches nothing; the first device is connected afterwards exactly when it was before or the loop broke on a connect that returned |
| ScannerThread.RFIDScannerThread.RetryConnect | android/src/main/java/com/headuck/reactnativezebrarfid/RFIDScannerThread.java:157-227 | the loop in place ends with `Run`'s error and makes the reader calls of the attempts it consumed; the reader is connected afterwards exactly when it was before or the loop broke on a connect that returned |
| ScannerThread.RFIDScannerThread.ConnectAttempt | android/src/main/java/com/headuck/reactnativezebrarfid/RFIDScannerThread.java:158-226 | one pass of the loop body breaks exactly when the outcome does not retry; on a region retry it applies "HKG" |
| ScannerThread.RFIDScannerThread.Init | android/src/main/java/com/headuck/reactnativezebrarfid/RFIDScannerThread.java:113-131 | clears the flags, the mode and tagId, then connects as `Connect` does, with the same connected state of the first discovered device and of the old stored device |
| ScannerThread.RFIDScannerThread.ResetSession | android/src/main/java/com/headuck/reactnativezebrarfid/RFIDScannerThread.java:115-129 | opens the readers, records the bluetooth discovery if it returned, and clears tempDisconnected, active, the mode and tagId |
| ScannerThread.RFIDScannerThread.Reconnect | android/src/main/java/com/headuck/reactnativezebrarfid/RFIDScannerThread.java:252-284 | acts only with a device that is temporarily disconnected and not connected; success clears the flag and dispatches "opened" |
| ScannerThread.RFIDScannerThread.Shutdown | android/src/main/java/com/headuck/reactnativezebrarfid/RFIDScannerThread.java:326-336 | disconnects any device, then releases the readers and the device list |
| ScannerThread.RFIDScannerThread.OnHostResume | android/src/main/java/com/headuck/reactnativezebrarfid/RFIDScannerThread.java:341-347 | connects as `Connect` does only while the readers are open; with the readers closed nothing changes, no device's connected state included |
| ScannerThread.RFIDScannerThread.OnHostPause | android/src/main/java/com/headuck/reactnativezebrarfid/RFIDScannerThread.java:349-352 | cancel, then disconnect |
| ScannerThread.RFIDScannerThread.OnHostDestroy | android/src/main/java/com/headuck/reactnativezebrarfid/RFIDScannerThread.java:354-357 | cancel, then shut down |
| RFIDScannerJs.InvocationsInOrder | lib/RFIDScanner.js:29-31 | each callback is called exactly once, in registration order, with the same argument |
| RFIDScannerJs.SpliceMatches | lib/RFIDScanner.js:87-95 | removeon never makes a list longer |
| RFIDScannerJs.Without | lib/RFIDScanner.js:90 | the reference list of entries that do not match has no match left |
| RFIDScannerJs.SpliceMatchesKeepsOthers | lib/RFIDScanner.js:87-95 | removeon drops only entries matching the callback's text; the others stay, in order |
| RFIDScannerJs.SpliceMatchesAbsent | lib/RFIDScanner.js:87-95 | removeon of a callback that is not registered changes nothing |
| RFIDScannerJs.SpliceMatchesRemovesAllIff | lib/RFIDScanner.js:89-93 | a matching entry survives removeon exactly when the list held two matching entries in a row |
| RFIDScannerJs.AdjacentDuplicateSurvives | lib/RFIDScanner.js:89-93 | a callback registered twice in a row is still registered once afterwards |
| RFIDScannerJs.VisitStep | lib/RFIDScanner.js:89-93 | one forEach visit, with or without a splice, keeps the list the loop ends with |
| RFIDScannerJs.RFIDScanner.constructor | lib/RFIDScanner.js:16 | the registry starts empty |
| RFIDScannerJs.RFIDScanner.On | lib/RFIDScanner.js:82-85 | appends the callback to the end of the event's list, creating the list, and changes no other event |
| RFIDScannerJs.RFIDScanner.RemoveOn | lib/RFIDScanner.js:87-95 | changes only the event's list, to what the in-place splicing inside forEach leaves; an unregistered event changes nothing |
| RFIDScannerJs.RFIDScanner.RemoveOnEvent | lib/RFIDScanner.js:97-103 | a registered event is left with an empty list; no entry is created for an unregistered one |
| RFIDScannerJs.RFIDScanner.HasOn | lib/RFIDScanner.js:105-115 | true exactly when the event is registered and its list holds the callback's text |
| RFIDScannerJs.RFIDScanner.CallAll | lib/RFIDScanner.js:29-31 | the forEach of a handler calls every registered callback in order, and nothing for an unregistered event |
| RFIDScannerJs.RFIDScanner.HandleStatusEvent | lib/RFIDScanner.js:26-33 | calls every "status" callback in order with the status string |
| RFIDScannerJs.RFIDScanner.HandleSettingEvent | lib/RFIDScanner.js:35-42 | calls every "SettingEvent" callback in order with the setting event |
| RFIDScannerJs.RFIDScanner.HandleTagEvent | lib/RFIDScanner.js:44-50 | calls every "tag" callback in order with the tag result |
| RFIDScannerJs.RFIDScanner.HandleTagsEvent | lib/RFIDScanner.js:52-58 | calls every "tags" callback in order with the batch |
| RFIDScannerJs.RFIDScanner.Deliver | lib/RFIDScanner.js:19-22 | each native event reaches the handler registered for its name |

## Left out

- The Zebra reader library is not modelled. Its calls are entries in a log, and whether they throw is an input. Discovery, event-listener registration, trigger setup, antenna power, DPO and access timeout are reduced to the `ReaderConnect` and `ConfigureWrite` entries.
- A connect that returns, followed by a later setup call that throws inside the same pass, is not distinguished: the device counts as connected only on a pass that returns normally.
- The hostname test for RFD8500 in setWriteConfig is not modelled. A failure of the DPO or timeout calls is treated like a failure of the antenna calls, and the setting event is emitted when `configOk` is true.
- Android logging (`Log`, `log`, the "TEST123" tag) is not modelled. Neither is the `SeenTime` dereference in the READ and LOCK log lines, which could throw on a record without a seen time.
- The `LogEvent` of setMode is modelled, because it dispatches a status event with the text "LOG: SET MODE: ...".
- React bridge marshalling (`Arguments`, `WritableMap`, `ReadableMap`) is not modelled. A configuration is a map from key to string, number or null. A setting event carries only its message.
- Threading: the model is sequential, and each handler runs atomically.
- `onCatalystInstanceDestroy` is the same as `onHostDestroy` (cancel, then shut down) and is covered by `OnHostDestroy`.
- Connection.BreakError: a region-configuration call that throws `InvalidUsageException` or an unchecked exception is not modelled. Such a call runs inside a catch block, so the exception leaves the retry loop. An `InvalidUsageException` ends at connect's outer handler with the error "connect: invalid usage error: ...". Only the `OperationFailureException` path of those calls (`configFailure`) is modelled.
- ScannerThread.RFIDScannerThread.Connect: requires that some attempt ends the retry loop. The code loops for ever when the reader keeps failing with a generic exception or keeps asking for a region, so such a run has no final state to state.
- ScannerThread.RFIDScannerThread.Init: requires that some attempt ends the retry loop, for the same reason as Connect.
- ScannerThread.RFIDScannerThread.OnHostResume: requires that some attempt ends the retry loop, for the same reason as Connect.
- ScannerThread.RFIDScannerThread.SetTagData: requires the zero write offset that the reset leaves; setMode always runs it after the reset.
- ScannerThread.RFIDScannerThread.SetReadLength: requires the zero read offset that the reset leaves; setMode always runs it after the reset.
- TagResults.Classify: a record's tag id is never null here, so an INVENTORY record without an id, which the code skips, is not modelled.
- ModeConfig.ParseBank: the reader library's bank lookup is not part of this model; the bank names "reserved", "epc", "tid" and "user" are assumed.
- ModeConfig.GetInt: configuration numbers are unbounded integers here. The bridge's getInt casts a double to a 32-bit int, so a non-integral `read_length` is truncated and one outside the 32-bit range saturates; neither is modelled. For example 3000000000 gives readLength 536870912 with offset 1 in the code, but 750000000 with offset 0 here.
- ModeConfig.PadToWords: a string is a sequence of code points here, while `tagData.length()` counts UTF-16 units. Tag data with characters outside the Basic Multilingual Plane would be padded differently. The same holds for ModeConfig.PadCount.
- ScannerThread.RFIDScannerThread.SetMode: the mode is a string, never null. The code would store a null mode, and a later trigger release would then throw at `rfidMode.equals(WRITE)`.
- ScannerThread.RFIDScannerThread.OpenFirstReader: a discovery is a list or `None`, and `None` stands for a discovery that threw, which leaves `deviceList` unchanged. A discovery that returns null, which the code stores as a null `deviceList`, is not distinguished. The field is never read. The same holds for ResetSession's bluetooth discovery.
- RFIDScannerJs.RFIDScanner.On: event names that collide with properties of JS arrays (such as "length" or "push") are not modelled; the registry is a plain map.
- RFIDScannerJs.RFIDScanner.CallAll: callbacks are not run. A callback that changes the registry while it is being dispatched cannot be expressed here.
- The thin JS forwarders `init`, `setMode`, `reconnect`, `cancel`, `shutdown` and the singleton guard of the JS constructor are not modelled. They only call the native module.
