/** The Home Assistant auto-discovery catalogue: the fifteen entities the
    bridge announces, the configuration document built for each, and the
    topic and unique id every document is published under. */
module Discovery {
  import opened Optional
  import opened Text
  import opened Globals
  import opened Modes
  import opened Commands
  import opened ChargerState

  datatype Component = Sensor | BinarySensor | Switch | Number | Select

  function ComponentName(c: Component): string
  {
    match c
    case Sensor => "sensor"
    case BinarySensor => "binary_sensor"
    case Switch => "switch"
    case Number => "number"
    case Select => "select"
  }

  /** The keys of a discovery document. */
  datatype Field =
    | Name | UniqueId | StateTopic | Device
    | ValueTemplate | UnitOfMeasurement | DeviceClass | Icon | PayloadOn | PayloadOff
    | CommandTopic | Min | Max | Step | Options

  /** The JSON key each field is written under. */
  function FieldName(f: Field): string
  {
    match f
    case Name => "name"
    case UniqueId => "unique_id"
    case StateTopic => "state_topic"
    case Device => "device"
    case ValueTemplate => "value_template"
    case UnitOfMeasurement => "unit_of_measurement"
    case DeviceClass => "device_class"
    case Icon => "icon"
    case PayloadOn => "payload_on"
    case PayloadOff => "payload_off"
    case CommandTopic => "command_topic"
    case Min => "min"
    case Max => "max"
    case Step => "step"
    case Options => "options"
  }

  /** The optional fields copied from an entity into its document, in the
      order they are copied. */
  const OPTIONAL_FIELDS: seq<Field> :=
    [ValueTemplate, UnitOfMeasurement, DeviceClass, Icon, PayloadOn, PayloadOff,
     CommandTopic, Min, Max, Step, Options]

  /** The device all entities are grouped under. */
  datatype DeviceInfo = DeviceInfo(
    identifiers: seq<string>,
    name: string,
    manufacturer: string,
    model: string,
    swVersion: string)

  /** The JSON values a discovery document holds. */
  datatype Json =
    | JStr(s: string) | JInt(i: int) | JStrs(items: seq<string>)
    | JTemplate(template: Template) | JDevice(device: DeviceInfo)

  type Document = map<Field, Json>

  /** One catalogue entry: its kind, object id, display name, state topic and
      the optional fields it defines. */
  datatype Entity = Entity(
    component: Component,
    objectId: string,
    name: string,
    stateTopic: string,
    extras: map<Field, Json>)

  /** `_get_device_info`. */
  function DeviceInfoFor(deviceId: string, deviceName: string, rt: Runtime): (d: DeviceInfo)
    ensures d.identifiers == [deviceId] && d.name == deviceName
    ensures d.manufacturer == "OpenEO" && d.model == "EV Charger Controller"
    ensures rt.appVersion.None? ==> d.swVersion == "unknown"
    ensures rt.appVersion.Some? ==> d.swVersion == rt.appVersion.value
  {
    DeviceInfo([deviceId], deviceName, "OpenEO", "EV Charger Controller", rt.appVersion.GetOr("unknown"))
  }

  /** The Jinja templates the entities read their state with. The plugin
      passes them through as text and never evaluates them. */
  datatype Template =
    | StateValue(field: string)
    | SwitchOnOff
    | ModeChoice

  /** The text of each template. */
  function TemplateText(t: Template): string
  {
    match t
    case StateValue(field) => "{{ value_json." + field + " }}"
    case SwitchOnOff => "{{ 'ON' if (value_json.switch_enabled and value_json.switch_on) else 'OFF' }}"
    case ModeChoice =>
      "{{ 'manual' if value_json.mode == 'manual' else ('schedule' if value_json.mode == 'schedule' else 'off') }}"
  }

  /** The optional fields of a sensor reading one numeric field of the state
      document. */
  function MeasurementFields(field: string, unit: string, deviceClass: string, icon: string): map<Field, Json>
  {
    map[ValueTemplate := JTemplate(StateValue(field)), UnitOfMeasurement := JStr(unit),
        DeviceClass := JStr(deviceClass), Icon := JStr(icon)]
  }

  /** The optional fields of a binary sensor reading a "true"/"false" field of
      the state document. */
  function IndicatorFields(field: string, deviceClass: string, icon: string): map<Field, Json>
  {
    map[ValueTemplate := JTemplate(StateValue(field)), PayloadOn := JStr("true"),
        PayloadOff := JStr("false"), DeviceClass := JStr(deviceClass), Icon := JStr(icon)]
  }

  /** The entries of the catalogue. */
  datatype EntityKind =
    | ChargerStateSensor | AmpsRequestedSensor | AmpsLimitSensor
    | PowerDeliveredSensor | PowerRequestedSensor | VoltageSensor | FrequencySensor
    | SiteCurrentSensor | VehicleCurrentSensor | SolarCurrentSensor
    | VehicleConnectedIndicator | ChargingActiveIndicator
    | ChargerSwitch | CurrentLimitNumber | ChargerModeSelect

  /** The publishing order: ten sensors, two binary sensors, then the switch,
      number and select controls. */
  const PUBLISH_ORDER: seq<EntityKind> :=
    [ChargerStateSensor, AmpsRequestedSensor, AmpsLimitSensor,
     PowerDeliveredSensor, PowerRequestedSensor, VoltageSensor, FrequencySensor,
     SiteCurrentSensor, VehicleCurrentSensor, SolarCurrentSensor,
     VehicleConnectedIndicator, ChargingActiveIndicator,
     ChargerSwitch, CurrentLimitNumber, ChargerModeSelect]

  /** The kind of Home Assistant entity each entry is. */
  function ComponentOf(kind: EntityKind): Component
  {
    match kind
    case VehicleConnectedIndicator | ChargingActiveIndicator => BinarySensor
    case ChargerSwitch => Switch
    case CurrentLimitNumber => Number
    case ChargerModeSelect => Select
    case _ => Sensor
  }

  /** The object id of each entry. */
  function ObjectId(kind: EntityKind): string
  {
    match kind
    case ChargerStateSensor => "charger_state"
    case AmpsRequestedSensor => "amps_requested"
    case AmpsLimitSensor => "amps_limit"
    case PowerDeliveredSensor => "power_delivered"
    case PowerRequestedSensor => "power_requested"
    case VoltageSensor => "voltage"
    case FrequencySensor => "frequency"
    case SiteCurrentSensor => "current_site"
    case VehicleCurrentSensor => "current_vehicle"
    case SolarCurrentSensor => "current_solar"
    case VehicleConnectedIndicator => "vehicle_connected"
    case ChargingActiveIndicator => "charging_active"
    case ChargerSwitch => "charger_switch"
    case CurrentLimitNumber => "current_limit"
    case ChargerModeSelect => "charger_mode"
  }

  /** The display name of each entry. */
  function DisplayName(kind: EntityKind): string
  {
    match kind
    case ChargerStateSensor => "Charger State"
    case AmpsRequestedSensor => "Amps Requested"
    case AmpsLimitSensor => "Amps Limit"
    case PowerDeliveredSensor => "Power Delivered"
    case PowerRequestedSensor => "Power Requested"
    case VoltageSensor => "Voltage"
    case FrequencySensor => "Mains Frequency"
    case SiteCurrentSensor => "Site Current"
    case VehicleCurrentSensor => "Vehicle Current"
    case SolarCurrentSensor => "Solar Current"
    case VehicleConnectedIndicator => "Vehicle Connected"
    case ChargingActiveIndicator => "Charging Active"
    case ChargerSwitch => "Charger Switch"
    case CurrentLimitNumber => "Current Limit"
    case ChargerModeSelect => "Charger Mode"
  }

  /** The optional fields each entry defines; `maxCurrent` is the number
      entity's upper bound. */
  function ExtrasOf(kind: EntityKind, deviceId: string, maxCurrent: int): map<Field, Json>
  {
    match kind
    case ChargerStateSensor =>
      map[ValueTemplate := JTemplate(StateValue("charger_state")), Icon := JStr("mdi:ev-station")]
    case AmpsRequestedSensor => MeasurementFields("amps_requested", "A", "current", "mdi:current-ac")
    case AmpsLimitSensor => MeasurementFields("amps_limit", "A", "current", "mdi:current-ac")
    case PowerDeliveredSensor => MeasurementFields("power_delivered", "kW", "power", "mdi:flash")
    case PowerRequestedSensor => MeasurementFields("power_requested", "kW", "power", "mdi:flash-outline")
    case VoltageSensor => MeasurementFields("voltage", "V", "voltage", "mdi:lightning-bolt")
    case FrequencySensor => MeasurementFields("frequency", "Hz", "frequency", "mdi:sine-wave")
    case SiteCurrentSensor => MeasurementFields("current_site", "A", "current", "mdi:home-lightning-bolt")
    case VehicleCurrentSensor => MeasurementFields("current_vehicle", "A", "current", "mdi:car-electric")
    case SolarCurrentSensor => MeasurementFields("current_solar", "A", "current", "mdi:solar-power")
    case VehicleConnectedIndicator => IndicatorFields("vehicle_connected", "connectivity", "mdi:car-connected")
    case ChargingActiveIndicator => IndicatorFields("charging_active", "battery_charging", "mdi:battery-charging")
    case ChargerSwitch =>
      map[CommandTopic := JStr(Commands.CommandTopic(deviceId, SwitchCommand)),
          ValueTemplate := JTemplate(SwitchOnOff),
          PayloadOn := JStr("ON"), PayloadOff := JStr("OFF"),
          Icon := JStr("mdi:ev-station"), DeviceClass := JStr("switch")]
    case CurrentLimitNumber =>
      map[CommandTopic := JStr(Commands.CommandTopic(deviceId, CurrentLimitCommand)),
          ValueTemplate := JTemplate(StateValue("amps_limit")),
          Min := JInt(MIN_CHARGING_CURRENT), Max := JInt(maxCurrent), Step := JInt(1),
          UnitOfMeasurement := JStr("A"), DeviceClass := JStr("current"), Icon := JStr("mdi:current-ac")]
    case ChargerModeSelect =>
      map[CommandTopic := JStr(Commands.CommandTopic(deviceId, ModeCommand)),
          ValueTemplate := JTemplate(ModeChoice),
          Options := JStrs(MODE_OPTIONS),
          Icon := JStr("mdi:cog")]
  }

  /** One entry of the catalogue of `_send_discovery` for a device. */
  function EntityOf(kind: EntityKind, deviceId: string, maxCurrent: int): Entity
  {
    Entity(ComponentOf(kind), ObjectId(kind), DisplayName(kind), ChargerState.StateTopic(deviceId),
      ExtrasOf(kind, deviceId, maxCurrent))
  }

  /** The whole catalogue, in publishing order. */
  function Catalogue(deviceId: string, maxCurrent: int): (c: seq<Entity>)
    ensures |c| == |PUBLISH_ORDER| == 15
    ensures forall i :: 0 <= i < |c| ==> c[i] == EntityOf(PUBLISH_ORDER[i], deviceId, maxCurrent)
  {
    seq(|PUBLISH_ORDER|, i requires 0 <= i < |PUBLISH_ORDER| => EntityOf(PUBLISH_ORDER[i], deviceId, maxCurrent))
  }

  /** Different entries have different object ids, and no object id contains
      the topic separator. */
  lemma ObjectIdsDistinct(k1: EntityKind, k2: EntityKind)
    ensures ObjectId(k1) == ObjectId(k2) ==> k1 == k2
    ensures '/' !in ObjectId(k1)
  {
  }

  /** No entry appears twice in the publishing order. */
  lemma PublishOrderDistinct()
    ensures forall i, j :: 0 <= i < j < |PUBLISH_ORDER| ==> PUBLISH_ORDER[i] != PUBLISH_ORDER[j]
  {
  }

  /** The command kind a control entity sends to; sensors send nothing. */
  function ControlCommand(kind: EntityKind): Option<CommandKind>
  {
    match kind
    case ChargerSwitch => Some(SwitchCommand)
    case CurrentLimitNumber => Some(CurrentLimitCommand)
    case ChargerModeSelect => Some(ModeCommand)
    case _ => None
  }

  /** An entity has a command topic exactly when it is a control, and that
      topic is one the message handler routes to the matching command. */
  lemma ControlTopicRouted(kind: EntityKind, deviceId: string, maxCurrent: int)
    ensures var e := EntityOf(kind, deviceId, maxCurrent);
      && (CommandTopic in e.extras <==> ControlCommand(kind).Some?)
      && (CommandTopic in e.extras ==>
            e.extras[CommandTopic] == JStr(Commands.CommandTopic(deviceId, ControlCommand(kind).value))
            && Route(deviceId, e.extras[CommandTopic].s) == ControlCommand(kind))
  {
    match kind
    case ChargerSwitch =>
      RouteExact(deviceId, Commands.CommandTopic(deviceId, SwitchCommand), SwitchCommand);
    case CurrentLimitNumber =>
      RouteExact(deviceId, Commands.CommandTopic(deviceId, CurrentLimitCommand), CurrentLimitCommand);
    case ChargerModeSelect =>
      RouteExact(deviceId, Commands.CommandTopic(deviceId, ModeCommand), ModeCommand);
    case _ =>
  }

  /** The number entity offers exactly the range the current-limit command
      accepts, with `max` the smaller of the controller maximum and the
      user's overall limit. */
  lemma NumberRangeIsAcceptedRange(deviceId: string, rt: Runtime)
    ensures var e := EntityOf(CurrentLimitNumber, deviceId, MaxAllowedCurrent(rt));
      && Min in e.extras && e.extras[Min].JInt? && Max in e.extras && e.extras[Max].JInt?
      && e.extras[Max].i <= MAX_CHARGING_CURRENT
      && (rt.overallLimit.Some? ==> e.extras[Max].i <= rt.overallLimit.value)
      && (forall v :: AcceptsCurrent(v, rt) <==> e.extras[Min].i <= v <= e.extras[Max].i)
  {
  }

  /** The mode select offers the mode names (each of which the mode command
      accepts, by `Modes.ModeOptionsParse`). */
  lemma ModeSelectOptions(deviceId: string, maxCurrent: int)
    ensures var e := EntityOf(ChargerModeSelect, deviceId, maxCurrent);
      Options in e.extras && e.extras[Options] == JStrs(MODE_OPTIONS)
  {
  }

  /** Every field an entry defines is one of the optional fields, so the
      document carries all of them. */
  lemma ExtrasAreOptionalFields(kind: EntityKind, deviceId: string, maxCurrent: int)
    ensures forall f :: f in EntityOf(kind, deviceId, maxCurrent).extras ==> f in OPTIONAL_FIELDS
  {
  }

  // ------------------------------------------------------------- documents

  /** `{device_id}_{object_id}`. */
  function UniqueIdFor(deviceId: string, objectId: string): string
  {
    deviceId + "_" + objectId
  }

  /** Within one device, the unique id determines the object id. */
  lemma UniqueIdInjective(deviceId: string, o1: string, o2: string)
    ensures UniqueIdFor(deviceId, o1) == UniqueIdFor(deviceId, o2) ==> o1 == o2
  {
    assert UniqueIdFor(deviceId, o1)[|deviceId| + 1..] == o1;
    assert UniqueIdFor(deviceId, o2)[|deviceId| + 1..] == o2;
  }

  /** `{discovery_prefix}/{component}/{device_id}/{object_id}/config`. */
  function ConfigTopic(prefix: string, component: Component, deviceId: string, objectId: string): string
  {
    prefix + "/" + ComponentName(component) + "/" + deviceId + "/" + objectId + "/config"
  }

  /** Within one prefix and device, the config topic determines the object id. */
  lemma ConfigTopicInjective(prefix: string, c1: Component, c2: Component, deviceId: string, o1: string, o2: string)
    requires '/' !in o1 && '/' !in o2
    ensures ConfigTopic(prefix, c1, deviceId, o1) == ConfigTopic(prefix, c2, deviceId, o2) ==> o1 == o2
  {
    forall c, o | '/' !in o
      ensures AfterLast(ConfigTopic(prefix, c, deviceId, o)[..|ConfigTopic(prefix, c, deviceId, o)| - 7], '/') == o
    {
      var t := ConfigTopic(prefix, c, deviceId, o);
      var head := prefix + "/" + ComponentName(c) + "/" + deviceId;
      assert t[..|t| - 7] == head + ['/'] + o;
      AfterLastSegment(head, o, '/');
    }
  }

  /** The fields every document has. */
  function BaseDocument(e: Entity, deviceId: string, device: DeviceInfo): Document
  {
    map[Name := JStr(e.name),
        UniqueId := JStr(UniqueIdFor(deviceId, e.objectId)),
        StateTopic := JStr(e.stateTopic),
        Device := JDevice(device)]
  }

  /** The entity's values for those of `fields` it defines, copied one field
      after another. */
  function CopiedFields(extras: map<Field, Json>, fields: seq<Field>): Document
  {
    if fields == [] then map[]
    else
      var field := fields[|fields| - 1];
      var copied := CopiedFields(extras, fields[..|fields| - 1]);
      if field in extras then copied[field := extras[field]] else copied
  }

  /** Copying yields exactly the listed fields the entity defines, each with
      the entity's value. */
  lemma {:induction false} CopiedFieldsContents(extras: map<Field, Json>, fields: seq<Field>)
    ensures forall f :: f in CopiedFields(extras, fields) <==> f in extras && f in fields
    ensures forall f :: f in CopiedFields(extras, fields) ==> CopiedFields(extras, fields)[f] == extras[f]
  {
    if fields != [] {
      var init := fields[..|fields| - 1];
      CopiedFieldsContents(extras, init);
      assert fields == init + [fields[|fields| - 1]];
    }
  }

  /** The discovery document of one entity: name, unique id, state topic and
      device, plus every optional field the entity defines. */
  function DiscoveryDocument(e: Entity, deviceId: string, device: DeviceInfo): Document
  {
    BaseDocument(e, deviceId, device) + CopiedFields(e.extras, OPTIONAL_FIELDS)
  }

  /** A document holds the four fixed fields and exactly the optional fields
      the entity defines, with the entity's values. */
  lemma DiscoveryDocumentContents(e: Entity, deviceId: string, device: DeviceInfo)
    ensures var doc := DiscoveryDocument(e, deviceId, device);
      && (forall f :: f in doc <==> f in {Name, UniqueId, StateTopic, Device} || (f in e.extras && f in OPTIONAL_FIELDS))
      && doc[UniqueId] == JStr(UniqueIdFor(deviceId, e.objectId))
      && doc[Name] == JStr(e.name) && doc[StateTopic] == JStr(e.stateTopic) && doc[Device] == JDevice(device)
      && (forall f :: f in e.extras && f in OPTIONAL_FIELDS ==> doc[f] == e.extras[f])
  {
    CopiedFieldsContents(e.extras, OPTIONAL_FIELDS);
    assert Name !in OPTIONAL_FIELDS && UniqueId !in OPTIONAL_FIELDS;
    assert StateTopic !in OPTIONAL_FIELDS && Device !in OPTIONAL_FIELDS;
  }

  /** The config dictionary of `_send_discovery`, built field by field: the
      four fixed fields, then each optional field the entity defines. */
  method BuildDocument(e: Entity, deviceId: string, device: DeviceInfo) returns (config: Document)
    ensures config == DiscoveryDocument(e, deviceId, device)
  {
    config := map[Name := JStr(e.name),
                  UniqueId := JStr(UniqueIdFor(deviceId, e.objectId)),
                  StateTopic := JStr(e.stateTopic),
                  Device := JDevice(device)];
    var k := 0;
    while k < |OPTIONAL_FIELDS|
      invariant 0 <= k <= |OPTIONAL_FIELDS|
      invariant config == BaseDocument(e, deviceId, device) + CopiedFields(e.extras, OPTIONAL_FIELDS[..k])
    {
      var field := OPTIONAL_FIELDS[k];
      assert OPTIONAL_FIELDS[..k + 1][..k] == OPTIONAL_FIELDS[..k];
      if field in e.extras {
        config := config[field := e.extras[field]];
      }
      k := k + 1;
    }
    assert OPTIONAL_FIELDS[..k] == OPTIONAL_FIELDS;
  }
}
