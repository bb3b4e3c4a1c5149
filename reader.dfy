/**
 * The reader as the controller sees it: a device handle whose connection state the
 * reader library (and the radio link) may change, and the log of calls the
 * controller issues to it. What each call does inside the library is not modelled;
 * whether it throws is an input of the operation that makes it.
 */
module Reader {
  import opened Common
  import opened ModeConfig

  /** A discovered ReaderDevice together with its RFIDReader. */
  class ReaderDevice {
    const name: string
    /** getRFIDReader() is non-null. */
    const hasReader: bool
    /** getRFIDReader().isConnected(). */
    var connected: bool

    constructor (name: string, hasReader: bool, connected: bool)
      ensures this.name == name && this.hasReader == hasReader && this.connected == connected
    {
      this.name := name;
      this.hasReader := hasReader;
      this.connected := connected;
    }
  }

  /** Tag pattern A of an access filter: bank, pattern (also the mask) and bit count. */
  datatype Filter = Filter(bank: MemoryBank, pattern: string, bitCount: int)

  /** One call the controller makes on the reader, with the parameters that vary. */
  datatype SdkCall =
    | ReaderConnect                   // rfidReader.connect() and the listener setup after it
    | SetRegion(code: string)         // setRegulatoryConfig with the region found
    | StartInventoryCall              // Actions.Inventory.perform()
    | StopInventoryCall               // Actions.Inventory.stop()
    | ConfigureWrite                  // setWriteConfig: antenna power 240, DPO, 1000 ms timeout
    | WriteEvent(bank: MemoryBank, data: string, wordCount: int, writeFilter: Filter)
    | ReadEvent(bank: MemoryBank, wordCount: int, filter: Option<Filter>)
    | LockEvent(field: Option<LockField>, password: int, filter: Option<Filter>)
    | StopAccess                      // Actions.TagAccess.stopAccess()

  /**
   * Whether the reader calls of one operation return normally: the write
   * configuration, the start action (perform / readEvent / writeEvent / lockEvent)
   * and the stop action (stop / stopAccess).
   */
  datatype SdkCalls = SdkCalls(configOk: bool, actionOk: bool, stopOk: bool)
}
