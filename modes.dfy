/** The three operating modes exposed to Home Assistant, how a mode name is
    parsed, and how the current mode is read back from the two enable flags. */
module Modes {
  import opened Optional
  import opened Text
  import opened ConfigStore

  datatype Mode = Manual | Schedule | Off

  function ModeName(m: Mode): string
  {
    match m
    case Manual => "manual"
    case Schedule => "schedule"
    case Off => "off"
  }

  /** The mode a `mode/set` payload names, compared after `lower()`. */
  function ParseMode(payload: string): Option<Mode>
  {
    var mode := Lower(payload);
    if mode == "manual" then Some(Manual)
    else if mode == "schedule" then Some(Schedule)
    else if mode == "off" then Some(Off)
    else None
  }

  /** A payload selects mode `m` exactly when it is `m`'s name up to case. */
  lemma ParseModeIgnoresCase(payload: string, m: Mode)
    ensures ParseMode(payload) == Some(m) <==> SameIgnoringCase(payload, ModeName(m))
  {
    match m
    case Manual =>
      LowerOfLowerCase("manual");
      LowerMatchesIgnoringCase(payload, "manual");
    case Schedule =>
      LowerOfLowerCase("schedule");
      LowerMatchesIgnoringCase(payload, "schedule");
    case Off =>
      LowerOfLowerCase("off");
      LowerMatchesIgnoringCase(payload, "off");
  }

  /** Every mode name parses back to its mode. */
  lemma ParseModeName(m: Mode)
    ensures ParseMode(ModeName(m)) == Some(m)
  {
    LowerOfLowerCase(ModeName(m));
  }

  /** The mode names offered to Home Assistant's mode selector. */
  const MODE_OPTIONS: seq<string> := ["manual", "schedule", "off"]

  /** Every offered option names a mode, and every mode is offered. */
  lemma ModeOptionsParse()
    ensures forall o :: o in MODE_OPTIONS ==> ParseMode(o).Some?
    ensures forall m :: ModeName(m) in MODE_OPTIONS
  {
    ParseModeName(Manual);
    ParseModeName(Schedule);
    ParseModeName(Off);
    assert MODE_OPTIONS == [ModeName(Manual), ModeName(Schedule), ModeName(Off)];
  }

  /** The mode reported for a pair of enable flags: the switch alone is
      manual, the scheduler alone is schedule, anything else is off. */
  function DeriveMode(switchEnabled: bool, schedulerEnabled: bool): (m: Mode)
    ensures m == Manual <==> switchEnabled && !schedulerEnabled
    ensures m == Schedule <==> schedulerEnabled && !switchEnabled
    ensures m == Off <==> switchEnabled == schedulerEnabled
  {
    if switchEnabled && !schedulerEnabled then Manual
    else if schedulerEnabled && !switchEnabled then Schedule
    else Off
  }

  /** The mode the store currently describes. */
  function StoredMode(store: Store): Mode
  {
    DeriveMode(Flag(store, SWITCH_ENABLED), Flag(store, SCHEDULER_ENABLED))
  }
}
