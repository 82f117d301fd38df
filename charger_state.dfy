/** The state snapshot published to Home Assistant: the vehicle and charging
    flags derived from the charger state id, and the mode derived from the
    two enable flags in the configuration store. */
module ChargerState {
  import opened Optional
  import opened ConfigStore
  import opened Globals
  import opened Modes

  /** A vehicle is present from "plug present" onwards: state ids 7 to 16. */
  function VehicleConnected(stateId: int): (r: bool)
    ensures r <==> 7 <= stateId <= 16
  {
    stateId in [7, 8, 9, 10, 11, 12, 13, 14, 15, 16]
  }

  /** Charging is active in the charging and charge-complete states, 11 to 14. */
  function ChargingActive(stateId: int): (r: bool)
    ensures r <==> 11 <= stateId <= 14
    ensures r ==> VehicleConnected(stateId)
  {
    stateId in [11, 12, 13, 14]
  }

  /** How the state document spells a flag. */
  function FlagText(b: bool): string
  {
    if b then "true" else "false"
  }

  /** The fields of the state document this bridge computes or reads from the
      configuration store (the telemetry copied verbatim is not modelled). */
  datatype Snapshot = Snapshot(
    chargerState: string,
    chargerStateId: int,
    vehicleConnected: string,
    chargingActive: string,
    mode: string,
    switchOn: Value,
    switchEnabled: Value,
    appVersion: string,
    timestamp: int)

  /** The state document `_publish_state` builds at clock reading `now`. */
  function BuildSnapshot(store: Store, rt: Runtime, now: int): (s: Snapshot)
    ensures s.vehicleConnected == "true" <==> 7 <= s.chargerStateId <= 16
    ensures s.chargingActive == "true" <==> 11 <= s.chargerStateId <= 14
    ensures s.chargingActive == "true" ==> s.vehicleConnected == "true"
    ensures s.vehicleConnected in ["true", "false"] && s.chargingActive in ["true", "false"]
    ensures s.mode == ModeName(StoredMode(store)) && ParseMode(s.mode) == Some(StoredMode(store))
    ensures s.chargerState == rt.chargerState.GetOr("") && s.appVersion == rt.appVersion.GetOr("unknown")
    ensures s.chargerStateId == rt.chargerStateId.GetOr(0) && s.timestamp == now
    ensures s.switchOn == Lookup(store, SWITCH_ON, Bool(false))
    ensures s.switchEnabled == Lookup(store, SWITCH_ENABLED, Bool(false))
  {
    var stateId := rt.chargerStateId.GetOr(0);
    var switchEnabled := Flag(store, SWITCH_ENABLED);
    var schedulerEnabled := Flag(store, SCHEDULER_ENABLED);
    var mode := DeriveMode(switchEnabled, schedulerEnabled);
    ParseModeName(mode);
    Snapshot(
      rt.chargerState.GetOr(""),
      stateId,
      FlagText(VehicleConnected(stateId)),
      FlagText(ChargingActive(stateId)),
      ModeName(mode),
      Lookup(store, SWITCH_ON, Bool(false)),
      Lookup(store, SWITCH_ENABLED, Bool(false)),
      rt.appVersion.GetOr("unknown"),
      now)
  }

  /** `openeo/{device_id}/state`. */
  function StateTopic(deviceId: string): string
  {
    "openeo/" + deviceId + "/state"
  }
}
