/** The process-wide charging limits and the read-only view of the shared
    runtime state that the bridge consults. */
module Globals {
  import opened Optional

  /** The charging current bounds of the controller, in amps. Their values
      are set elsewhere in the program, so the model leaves them open. */
  const MIN_CHARGING_CURRENT: int
  const MAX_CHARGING_CURRENT: int

  /** The entries of the shared runtime state this bridge reads; `None` is a
      missing entry, which the bridge replaces by a default. */
  datatype Runtime = Runtime(
    chargerState: Option<string>,
    chargerStateId: Option<int>,
    overallLimit: Option<int>,
    appVersion: Option<string>)

  /** The highest current a remote client may set: the controller maximum,
      lowered by the user's overall limit when one is configured. */
  function MaxAllowedCurrent(rt: Runtime): (m: int)
    ensures m <= MAX_CHARGING_CURRENT
    ensures rt.overallLimit.Some? ==> m <= rt.overallLimit.value
    ensures m == MAX_CHARGING_CURRENT || (rt.overallLimit.Some? && m == rt.overallLimit.value)
  {
    var overall := rt.overallLimit.GetOr(MAX_CHARGING_CURRENT);
    if MAX_CHARGING_CURRENT <= overall then MAX_CHARGING_CURRENT else overall
  }

  /** The current range a remote command is checked against. */
  predicate AcceptsCurrent(amps: int, rt: Runtime)
  {
    MIN_CHARGING_CURRENT <= amps <= MaxAllowedCurrent(rt)
  }
}
