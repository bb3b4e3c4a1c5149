/** Translation of the reader's status notifications into outward status strings. */
module StatusEvents {
  import opened Common
  import opened ModeConfig

  datatype TriggerEvent = Pressed | Released | OtherTrigger

  datatype StatusEventType =
    | InventoryStart
    | InventoryStop
    | Disconnection
    | BatchMode(details: string)     // the text of BatchModeEventData.toString()
    | Battery(level: int)
    | HandheldTrigger(trigger: TriggerEvent)
    | OtherStatus

  const InventoryStartStatus := "inventoryStart"
  const InventoryStopStatus := "inventoryStop"
  const DisconnectStatus := "disconnect"

  function DigitChar(d: nat): char
    requires d < 10
  {
    ('0' as int + d) as char
  }

  /** The number a string of decimal digits denotes, most significant digit first. */
  function DigitsValue(s: string): int
    decreases |s|
  {
    if s == [] then 0 else DigitsValue(s[..|s| - 1]) * 10 + (s[|s| - 1] as int - '0' as int)
  }

  /** Every character is a decimal digit. */
  predicate DecimalDigits(s: string) {
    forall i :: 0 <= i < |s| ==> '0' <= s[i] <= '9'
  }

  /** Java's decimal rendering of a non-negative int: digits only, no leading zero, denoting `n`. */
  function NatToString(n: nat): (s: string)
    ensures |s| > 0
    ensures DecimalDigits(s)
    ensures s[0] == '0' ==> s == "0"
    ensures DigitsValue(s) == n
  {
    if n < 10 then [DigitChar(n)]
    else
      var prefix := NatToString(n / 10);
      var s := prefix + [DigitChar(n % 10)];
      assert s[..|s| - 1] == prefix;
      s
  }

  lemma {:induction false} DigitsValuePositive(s: string)
    requires |s| > 0 && DecimalDigits(s) && s[0] != '0'
    ensures DigitsValue(s) > 0
    decreases |s|
  {
    if |s| > 1 {
      DigitsValuePositive(s[..|s| - 1]);
    }
  }

  /** The rendering is the only digit string without a leading zero that denotes `n`. */
  lemma {:induction false} NatToStringUnique(s: string, n: nat)
    requires |s| > 0 && DecimalDigits(s) && (s[0] == '0' ==> s == "0")
    requires DigitsValue(s) == n
    ensures s == NatToString(n)
    decreases |s|
  {
    var p := s[..|s| - 1];
    var d := s[|s| - 1] as int - '0' as int;
    assert 0 <= d < 10 && DigitChar(d) == s[|s| - 1];
    assert s == p + [DigitChar(d)];
    if |s| == 1 {
      assert p == [] && n == d;
    } else {
      assert DecimalDigits(p) && p[0] == s[0];
      DigitsValuePositive(p);
      var q := DigitsValue(p);
      assert n == q * 10 + d;
      assert n / 10 == q && n % 10 == d;
      NatToStringUnique(p, q);
    }
  }

  /** Java's decimal rendering of an int in a string concatenation. */
  function IntToString(n: int): string {
    if n < 0 then "-" + NatToString(-n) else NatToString(n)
  }

  /**
   * The status string eventStatusNotify dispatches, for the mode current when the
   * event arrives; None when it dispatches no status event.
   */
  function StatusName(ev: StatusEventType, mode: Mode): (name: Option<string>)
    // a status event is dispatched exactly for the five reader statuses and the
    // trigger press and release in WRITE mode
    ensures name.None? <==> ev.OtherStatus? || (ev.HandheldTrigger? && (mode != WriteMode || ev.trigger.OtherTrigger?))
    ensures ev.HandheldTrigger? && name.Some? ==>
              name == Some(if ev.trigger.Pressed? then InventoryStartStatus else InventoryStopStatus)
    ensures ev.InventoryStart? ==> name == Some(InventoryStartStatus)
    ensures ev.InventoryStop? ==> name == Some(InventoryStopStatus)
    ensures ev.Disconnection? ==> name == Some(DisconnectStatus)
    ensures ev.Battery? ==> name == Some("battery " + IntToString(ev.level))
    ensures ev.BatchMode? ==> name == Some("batchMode" + ev.details)
  {
    match ev
    case InventoryStart => Some(InventoryStartStatus)
    case InventoryStop => Some(InventoryStopStatus)
    case Disconnection => Some(DisconnectStatus)
    case BatchMode(details) => Some("batchMode" + details)
    case Battery(level) => Some("battery " + IntToString(level))
    case HandheldTrigger(t) =>
      if mode == WriteMode && t.Pressed? then Some(InventoryStartStatus)
      else if mode == WriteMode && t.Released? then Some(InventoryStopStatus)
      else None
    case OtherStatus => None
  }
}
