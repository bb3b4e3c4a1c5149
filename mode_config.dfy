/**
 * Mode configuration of the RFID controller: the mode names, the flat key/value
 * configuration map handed to setMode, and the normalisation setMode applies to it
 * (hex write data padded to whole 4-digit words, read length rounded up to words).
 */
module ModeConfig {
  import opened Common

  // ---------------------------------------------------------------------------
  // Modes. The controller stores the mode as a string and switches on it; a string
  // that is none of the five keys matches no case and is carried as OtherMode.
  // ---------------------------------------------------------------------------

  const NoneKey := "none"
  const InventoryKey := "inventory"
  const ReadKey := "read"
  const WriteKey := "write"
  const LockKey := "lock"

  datatype Mode = NoneMode | InventoryMode | ReadMode | WriteMode | LockMode | OtherMode(name: string)

  function ParseMode(s: string): (m: Mode)
    ensures m.OtherMode? <==> s !in {NoneKey, InventoryKey, ReadKey, WriteKey, LockKey}
  {
    if s == NoneKey then NoneMode
    else if s == InventoryKey then InventoryMode
    else if s == ReadKey then ReadMode
    else if s == WriteKey then WriteMode
    else if s == LockKey then LockMode
    else OtherMode(s)
  }

  /** The string the source would hold in its `rfidMode` field. */
  function ModeName(m: Mode): string {
    match m
    case NoneMode => NoneKey
    case InventoryMode => InventoryKey
    case ReadMode => ReadKey
    case WriteMode => WriteKey
    case LockMode => LockKey
    case OtherMode(name) => name
  }

  /** Any mode string survives being stored as a Mode. */
  lemma ModeNameOfParse(s: string)
    ensures ModeName(ParseMode(s)) == s
  {
  }

  /** A Mode that a string can produce is recovered from its name. */
  lemma ParseOfModeName(m: Mode)
    requires m.OtherMode? ==> m.name !in {NoneKey, InventoryKey, ReadKey, WriteKey, LockKey}
    ensures ParseMode(ModeName(m)) == m
  {
  }

  // ---------------------------------------------------------------------------
  // Memory banks and lock fields.
  // ---------------------------------------------------------------------------

  datatype MemoryBank = Reserved | Epc | Tid | User
  datatype LockField = LockAccessPassword | LockUserMemory

  const DefaultBankName := "user"
  const LockAccessPasswordName := "lock_password"
  const LockUserMemoryName := "lock_user_memory"

  function BankName(b: MemoryBank): string {
    match b
    case Reserved => "reserved"
    case Epc => "epc"
    case Tid => "tid"
    case User => "user"
  }

  /**
   * The reader library's bank lookup. A null or unrecognised name leaves the bank
   * null (the source catches the lookup's exception and keeps the field null).
   */
  function ParseBank(name: Option<string>): (b: Option<MemoryBank>)
    ensures b.Some? ==> name == Some(BankName(b.value))
  {
    if name == Some("reserved") then Some(Reserved)
    else if name == Some("epc") then Some(Epc)
    else if name == Some("tid") then Some(Tid)
    else if name == Some("user") then Some(User)
    else None
  }

  lemma ParseBankName(b: MemoryBank)
    ensures ParseBank(Some(BankName(b))) == Some(b)
  {
  }

  /** Read, write and the write filter use USER wherever the bank field is null. */
  function EffectiveBank(b: Option<MemoryBank>): (e: MemoryBank)
    ensures b.Some? ==> e == b.value
    ensures b.None? ==> e == User
  {
    b.GetOr(User)
  }

  /** The name the `tagData` value must carry for the lock switch to pick a field. */
  function LockFieldNamed(s: string): (f: Option<LockField>)
    ensures f == Some(LockAccessPassword) <==> s == LockAccessPasswordName
    ensures f == Some(LockUserMemory) <==> s == LockUserMemoryName
  {
    if s == LockAccessPasswordName then Some(LockAccessPassword)
    else if s == LockUserMemoryName then Some(LockUserMemory)
    else None
  }

  // ---------------------------------------------------------------------------
  // Write data padding: right-pad with '0' to a whole number of 4-digit words.
  // ---------------------------------------------------------------------------

  /** How many '0' digits the source appends to data of length `len`. */
  function PadCount(len: nat): (k: nat)
    ensures k < 4 && (len + k) % 4 == 0
    ensures k == (4 - len % 4) % 4
  {
    var rest := len % 4;
    if rest > 0 then 4 - rest else 0
  }

  function Zeros(k: nat): (z: string)
    ensures |z| == k
    ensures forall i :: 0 <= i < k ==> z[i] == '0'
  {
    if k == 0 then "" else Zeros(k - 1) + "0"
  }

  function PadToWords(s: string): (r: string)
    ensures |r| % 4 == 0
    ensures |s| <= |r| < |s| + 4
    ensures r[..|s|] == s
    ensures forall i :: |s| <= i < |r| ==> r[i] == '0'
    ensures |r| - |s| == PadCount(|s|)
  {
    s + Zeros(PadCount(|s|))
  }

  /** Padding whole words adds nothing, so padding twice is padding once. */
  lemma PadToWordsIdempotent(s: string)
    ensures PadToWords(PadToWords(s)) == PadToWords(s)
  {
    var p := PadToWords(s);
    assert PadCount(|p|) == 0;
    assert Zeros(0) == "";
  }

  // ---------------------------------------------------------------------------
  // Read length: Java `int` division and remainder truncate toward zero.
  // ---------------------------------------------------------------------------

  function TruncDiv(a: int, b: int): int
    requires b > 0
  {
    if a >= 0 then a / b else -((-a) / b)
  }

  function TruncRem(a: int, b: int): int
    requires b > 0
  {
    a - b * TruncDiv(a, b)
  }

  /** `readLength` after setMode with `read_length = n`. */
  function ReadWords(n: int): int {
    TruncDiv(n, 4) + (if TruncRem(n, 4) > 0 then 1 else 0)
  }

  /** `readLengthOffset` after setMode with `read_length = n`. */
  function ReadOffset(n: int): int {
    var rest := TruncRem(n, 4);
    if rest > 0 then 4 - rest else 0
  }

  /** For a non-negative length: whole words rounded up, and the excess digits to trim. */
  lemma ReadLengthRounding(n: int)
    requires n >= 0
    ensures ReadWords(n) == (n + 3) / 4
    ensures ReadOffset(n) == (4 - n % 4) % 4
    ensures 0 <= ReadOffset(n) < 4
    ensures 4 * ReadWords(n) - ReadOffset(n) == n
  {
  }

  /** A negative length keeps Java's truncated quotient and no offset. */
  lemma ReadLengthNegative(n: int)
    requires n < 0
    ensures ReadWords(n) == -((-n) / 4) && ReadWords(n) <= 0
    ensures ReadOffset(n) == 0
  {
  }

  // ---------------------------------------------------------------------------
  // The configuration map and what setMode derives from it.
  // ---------------------------------------------------------------------------

  const MemoryKey := "memory_bank"
  const TagIdKey := "tagId"
  const TagDataKey := "tagData"
  const FilterMemoryKey := "filter_memory_bank"
  const ReadLengthKey := "read_length"
  const LockMemoryKey := "lock_memory"

  /** A value of the bridge's readable map. */
  datatype ConfigValue = Str(s: string) | Num(n: int) | Null
  type Config = map<string, ConfigValue>

  /** A map lookup either yields a value or throws. */
  datatype Fetched<T> = Got(value: T) | Throws

  /** getString: a string or null; a number or a missing key throws. */
  function GetString(c: Config, key: string): (r: Fetched<Option<string>>)
    ensures r.Throws? <==> key !in c || c[key].Num?
    ensures key in c && c[key].Str? ==> r == Got(Some(c[key].s))
    ensures key in c && c[key].Null? ==> r == Got(None)
  {
    if key !in c then Throws
    else match c[key]
      case Str(s) => Got(Some(s))
      case Null => Got(None)
      case Num(_) => Throws
  }

  /** getInt: a number; anything else throws. */
  function GetInt(c: Config, key: string): (r: Fetched<int>)
    ensures r.Got? <==> key in c && c[key].Num?
    ensures r.Got? ==> r.value == c[key].n
  {
    if key in c && c[key].Num? then Got(c[key].n) else Throws
  }

  /** The fields setMode writes, as a value. */
  datatype ModeData = ModeData(
    tagId: Option<string>,
    tagData: Option<string>,
    memoryBank: Option<MemoryBank>,
    filterMemoryBank: Option<MemoryBank>,
    readLength: int,
    readLengthOffset: int,
    writeDataOffset: int,
    lockMemory: Option<LockField>)

  /** The invariant every configuration setMode installs keeps. */
  predicate Normalised(d: ModeData) {
    && 0 <= d.readLengthOffset < 4
    && 0 <= d.writeDataOffset < 4
    && (d.tagData.Some? ==> |d.tagData.value| % 4 == 0)
    && (d.readLengthOffset > 0 ==> d.readLength > 0)
  }

  /** resetModeData: everything but the lock field goes back to null / 0. */
  function Reset(lock: Option<LockField>): (d: ModeData)
    ensures Normalised(d) && d.lockMemory == lock
  {
    ModeData(None, None, None, None, 0, 0, 0, lock)
  }

  /** The data reached so far, and whether setMode got past the last step without an exception. */
  datatype Configured = Configured(data: ModeData, completed: bool)

  /** The config is well typed exactly when none of setMode's lookups throws. */
  predicate WellTyped(c: Config) {
    && (MemoryKey in c ==> !c[MemoryKey].Num?)
    && (FilterMemoryKey in c ==> !c[FilterMemoryKey].Num?)
    && (TagIdKey in c ==> !c[TagIdKey].Num?)
    && (TagDataKey in c ==> c[TagDataKey].Str?)
    && (ReadLengthKey in c ==> c[ReadLengthKey].Num?)
    && (LockMemoryKey in c ==> TagDataKey in c)
  }

  /** The string a present key yields (null for Null). */
  function StringOf(v: ConfigValue): Option<string> {
    if v.Str? then Some(v.s) else None
  }

  function BankString(c: Config, key: string): Fetched<Option<string>> {
    if key in c then GetString(c, key) else Got(Some(DefaultBankName))
  }

  function ConfigureBanks(c: Config, d: ModeData): (r: Configured)
    ensures r.completed <==> (MemoryKey in c ==> !c[MemoryKey].Num?) && (FilterMemoryKey in c ==> !c[FilterMemoryKey].Num?)
    ensures r.data.(memoryBank := d.memoryBank, filterMemoryBank := d.filterMemoryBank) == d
    ensures !r.completed ==> r.data == d
    ensures r.completed ==>
      && r.data.memoryBank == (if MemoryKey in c then ParseBank(StringOf(c[MemoryKey])) else Some(User))
      && r.data.filterMemoryBank == (if FilterMemoryKey in c then ParseBank(StringOf(c[FilterMemoryKey])) else Some(User))
  {
    match BankString(c, MemoryKey)
    case Throws => Configured(d, false)
    case Got(m) =>
      match BankString(c, FilterMemoryKey)
      case Throws => Configured(d, false)
      case Got(f) => Configured(d.(memoryBank := ParseBank(m), filterMemoryBank := ParseBank(f)), true)
  }

  function ConfigureTagId(c: Config, d: ModeData): (r: Configured)
    ensures r.completed <==> (TagIdKey in c ==> !c[TagIdKey].Num?)
    ensures r.data == d.(tagId := if r.completed && TagIdKey in c then StringOf(c[TagIdKey]) else d.tagId)
  {
    if TagIdKey !in c then Configured(d, true)
    else match GetString(c, TagIdKey)
      case Throws => Configured(d, false)
      case Got(v) => Configured(d.(tagId := v), true)
  }

  function ConfigureTagData(c: Config, d: ModeData): (r: Configured)
    requires Normalised(d)
    ensures Normalised(r.data)
    ensures r.completed <==> (TagDataKey in c ==> c[TagDataKey].Str?)
    ensures r.data.(tagData := d.tagData, writeDataOffset := d.writeDataOffset) == d
    ensures TagDataKey !in c ==> r.data == d
    ensures r.completed && TagDataKey in c ==>
      r.data.tagData == Some(PadToWords(c[TagDataKey].s)) && r.data.writeDataOffset == PadCount(|c[TagDataKey].s|)
    ensures !r.completed ==> r.data.writeDataOffset == d.writeDataOffset
  {
    if TagDataKey !in c then Configured(d, true)
    else match GetString(c, TagDataKey)
      case Throws => Configured(d, false)
      case Got(None) => Configured(d.(tagData := None), false)   // null, then its length() throws
      case Got(Some(s)) => Configured(d.(tagData := Some(PadToWords(s)), writeDataOffset := PadCount(|s|)), true)
  }

  function ConfigureReadLength(c: Config, d: ModeData): (r: Configured)
    requires Normalised(d)
    ensures Normalised(r.data)
    ensures r.completed <==> (ReadLengthKey in c ==> c[ReadLengthKey].Num?)
    ensures r.data == if r.completed && ReadLengthKey in c
      then d.(readLength := ReadWords(c[ReadLengthKey].n), readLengthOffset := ReadOffset(c[ReadLengthKey].n))
      else d
  {
    if ReadLengthKey !in c then Configured(d, true)
    else match GetInt(c, ReadLengthKey)
      case Throws => Configured(d, false)
      case Got(n) => Configured(d.(readLength := ReadWords(n), readLengthOffset := ReadOffset(n)), true)
  }

  /** The lock switch only tests that `lock_memory` is present and then switches on `tagData`. */
  function ConfigureLock(c: Config, d: ModeData): (r: Configured)
    ensures r.completed <==> (LockMemoryKey in c ==> TagDataKey in c && !c[TagDataKey].Num? && !c[TagDataKey].Null?)
    ensures r.data == d.(lockMemory :=
      if r.completed && LockMemoryKey in c && LockFieldNamed(c[TagDataKey].s).Some?
      then LockFieldNamed(c[TagDataKey].s) else d.lockMemory)
  {
    if LockMemoryKey !in c then Configured(d, true)
    else match GetString(c, TagDataKey)
      case Throws => Configured(d, false)
      case Got(None) => Configured(d, false)                     // switch on null throws
      case Got(Some(s)) =>
        var f := LockFieldNamed(s);
        Configured(if f.Some? then d.(lockMemory := f) else d, true)
  }

  /**
   * The mode data setMode leaves behind, starting from the current lock field.
   * The steps run in the source's order; an exception stops at that step.
   */
  function Configure(c: Config, lock: Option<LockField>): (r: Configured)
    ensures Normalised(r.data)
    // setMode runs to its end iff no lookup throws
    ensures r.completed <==> WellTyped(c)
    // banks: an absent key means "user"; a name the lookup rejects leaves null
    ensures r.completed ==>
      r.data.memoryBank == (if MemoryKey in c then ParseBank(StringOf(c[MemoryKey])) else Some(User))
    ensures r.completed ==>
      r.data.filterMemoryBank == (if FilterMemoryKey in c then ParseBank(StringOf(c[FilterMemoryKey])) else Some(User))
    ensures r.completed ==> r.data.tagId == (if TagIdKey in c then StringOf(c[TagIdKey]) else None)
    // write data: the input, then only '0's up to a whole word
    ensures TagDataKey !in c ==> r.data.tagData == None && r.data.writeDataOffset == 0
    ensures r.completed && TagDataKey in c ==>
              var s := c[TagDataKey].s;
              && r.data.tagData.Some?
              && r.data.writeDataOffset == (4 - |s| % 4) % 4
              && |r.data.tagData.value| == |s| + r.data.writeDataOffset
              && r.data.tagData.value[..|s|] == s
              && (forall i :: |s| <= i < |r.data.tagData.value| ==> r.data.tagData.value[i] == '0')
    // read length
    ensures ReadLengthKey !in c ==> r.data.readLength == 0 && r.data.readLengthOffset == 0
    ensures r.completed && ReadLengthKey in c ==>
              r.data.readLength == ReadWords(c[ReadLengthKey].n) &&
              r.data.readLengthOffset == ReadOffset(c[ReadLengthKey].n)
    // the lock field is kept unless the lock switch matched the tagData value
    ensures r.data.lockMemory ==
              if r.completed && LockMemoryKey in c && LockFieldNamed(c[TagDataKey].s).Some?
              then LockFieldNamed(c[TagDataKey].s) else lock
  {
    var r1 := ConfigureBanks(c, Reset(lock));
    if !r1.completed then r1 else
    var r2 := ConfigureTagId(c, r1.data);
    if !r2.completed then r2 else
    var r3 := ConfigureTagData(c, r2.data);
    if !r3.completed then r3 else
    var r4 := ConfigureReadLength(c, r3.data);
    if !r4.completed then r4 else
    ConfigureLock(c, r4.data)
  }
}
