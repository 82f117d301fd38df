/** The Home Assistant MQTT plugin: its connection flags, the command
    handlers that write the shared configuration store, the discovery and
    state publications, and the poll hook the host calls. Publishing and
    subscribing append to the `published` and `subscriptions` logs. */
module HomeAssistant {
  import opened Optional
  import opened Text
  import opened ConfigStore
  import opened Globals
  import opened Modes
  import opened Commands
  import opened ChargerState
  import opened Discovery

  /** The plugin's settings. */
  datatype PluginConfig = PluginConfig(
    enabled: bool,
    mqttHost: string,
    mqttPort: int,
    mqttUsername: string,
    mqttPassword: string,
    discoveryPrefix: string,
    deviceName: string,
    deviceId: string,
    publishInterval: int)

  /** The defaults of the plugin's parameter table. */
  const DEFAULT_CONFIG: PluginConfig :=
    PluginConfig(false, "localhost", 1883, "", "", "homeassistant", "OpenEO Charger", "openeo_charger_1", 5)

  /** What a publication carries: a discovery document or a state snapshot. */
  datatype Payload = DiscoveryConfig(document: Document) | StateReport(snapshot: Snapshot)

  datatype Publication = Publication(topic: string, payload: Payload, retain: bool)

  /** The retained discovery message of one entity. */
  function DiscoveryPublication(config: PluginConfig, device: DeviceInfo, e: Entity): Publication
  {
    Publication(
      ConfigTopic(config.discoveryPrefix, e.component, config.deviceId, e.objectId),
      DiscoveryConfig(DiscoveryDocument(e, config.deviceId, device)),
      true)
  }

  /** Everything one discovery round publishes, in order. */
  function DiscoveryPublications(config: PluginConfig, rt: Runtime): (ps: seq<Publication>)
    ensures |ps| == 15
    ensures forall i :: 0 <= i < |ps| ==> ps[i].retain && ps[i].payload.DiscoveryConfig?
  {
    var device := DeviceInfoFor(config.deviceId, config.deviceName, rt);
    PublicationsOf(config, device, Catalogue(config.deviceId, MaxAllowedCurrent(rt)))
  }

  /** The discovery messages of `entities`, one each, in order. */
  function PublicationsOf(config: PluginConfig, device: DeviceInfo, entities: seq<Entity>): (ps: seq<Publication>)
    ensures |ps| == |entities|
    ensures forall i :: 0 <= i < |ps| ==> ps[i] == DiscoveryPublication(config, device, entities[i])
  {
    seq(|entities|, i requires 0 <= i < |entities| => DiscoveryPublication(config, device, entities[i]))
  }

  /** The fifteen discovery messages go to fifteen different topics and
      announce fifteen different unique ids. */
  lemma DiscoveryPublicationsDistinct(config: PluginConfig, rt: Runtime)
    ensures var ps := DiscoveryPublications(config, rt);
      forall i, j :: 0 <= i < j < |ps| ==>
        && ps[i].topic != ps[j].topic
        && ps[i].payload.document[UniqueId] != ps[j].payload.document[UniqueId]
  {
    var ps := DiscoveryPublications(config, rt);
    var maxCurrent := MaxAllowedCurrent(rt);
    var entities := Catalogue(config.deviceId, maxCurrent);
    PublishOrderDistinct();
    forall i, j | 0 <= i < j < |ps|
      ensures ps[i].topic != ps[j].topic
      ensures ps[i].payload.document[UniqueId] != ps[j].payload.document[UniqueId]
    {
      var k1, k2 := PUBLISH_ORDER[i], PUBLISH_ORDER[j];
      var e1, e2 := entities[i], entities[j];
      ObjectIdsDistinct(k1, k2);
      ObjectIdsDistinct(k2, k1);
      ConfigTopicInjective(config.discoveryPrefix, e1.component, e2.component, config.deviceId, e1.objectId, e2.objectId);
      UniqueIdInjective(config.deviceId, e1.objectId, e2.objectId);
      DiscoveryDocumentContents(e1, config.deviceId, DeviceInfoFor(config.deviceId, config.deviceName, rt));
      DiscoveryDocumentContents(e2, config.deviceId, DeviceInfoFor(config.deviceId, config.deviceName, rt));
    }
  }

  /** The non-retained state message built from the store and runtime state. */
  function StatePublication(deviceId: string, store: Store, rt: Runtime, now: int): (p: Publication)
    ensures !p.retain && p.topic == ChargerState.StateTopic(deviceId)
  {
    Publication(ChargerState.StateTopic(deviceId), StateReport(BuildSnapshot(store, rt, now)), false)
  }

  class Plugin {
    const config: PluginConfig
    /** Whether the MQTT client library could be loaded. */
    const mqttAvailable: bool
    /** The shared configuration store. */
    const configDB: ConfigDB

    var connected: bool
    var discoverySent: bool
    var lastPublish: int
    /** Topics subscribed to, in order. */
    var subscriptions: seq<string>
    /** Messages handed to the MQTT client, in order. */
    var published: seq<Publication>

    constructor (config: PluginConfig, mqttAvailable: bool, configDB: ConfigDB)
      ensures this.config == config && this.mqttAvailable == mqttAvailable && this.configDB == configDB
      ensures !connected && !discoverySent && lastPublish == 0
      ensures subscriptions == [] && published == []
    {
      this.config := config;
      this.mqttAvailable := mqttAvailable;
      this.configDB := configDB;
      connected := false;
      lastPublish := 0;
      discoverySent := false;
      subscriptions := [];
      published := [];
    }

    /** The plugin does anything at all only with the client library present
        and the plugin enabled. */
    predicate Active()
    {
      mqttAvailable && config.enabled
    }

    // ---------------------------------------------------------- connection

    /** `_on_connect`: on success, mark the connection, subscribe to the
        command topics and publish discovery (the discovery thread is run to
        completion here); on failure nothing changes. */
    method OnConnect(rc: int, rt: Runtime)
      modifies this`connected, this`subscriptions, this`published, this`discoverySent
      ensures rc != 0 ==> unchanged(this)
      ensures rc == 0 ==> connected && discoverySent
      ensures rc == 0 ==> subscriptions == old(subscriptions) + CommandTopics(config.deviceId)
      ensures rc == 0 ==> published == old(published) + DiscoveryPublications(config, rt)
    {
      if rc == 0 {
        connected := true;
        SubscribeToCommands();
        SendDiscovery(rt);
      }
    }

    /** `_on_disconnect`: whatever the reason, the connection is gone and
        discovery must be sent again after the next connect. */
    method OnDisconnect(rc: int)
      modifies this`connected, this`discoverySent
      ensures !connected && !discoverySent
    {
      connected := false;
      discoverySent := false;
    }

    /** `_subscribe_to_commands`: subscribe to the four command topics, only
        while connected. */
    method SubscribeToCommands()
      modifies this`subscriptions
      ensures subscriptions == old(subscriptions) + (if connected then CommandTopics(config.deviceId) else [])
    {
      if !connected {
        return;
      }
      var topics := CommandTopics(config.deviceId);
      var i := 0;
      while i < |topics|
        invariant 0 <= i <= |topics|
        invariant subscriptions == old(subscriptions) + topics[..i]
      {
        subscriptions := subscriptions + [topics[i]];
        i := i + 1;
      }
    }

    // ------------------------------------------------------------ commands

    /** `_on_message`: strip the payload and dispatch on the exact topic
        (`Route` is its chain of topic comparisons);
        `parseAmps` stands for `int(float(text))`, `None` when that raises. */
    method OnMessage(topic: string, payload: string, parseAmps: string -> Option<int>, rt: Runtime)
      modifies configDB
      ensures configDB.entries ==
        old(configDB.entries) + MessageWrites(config.deviceId, topic, Strip(payload), parseAmps(Strip(payload)), rt)
    {
      var text := Strip(payload);
      var deviceId := config.deviceId;
      match Route(deviceId, topic)
      case Some(SwitchCommand) => HandleSwitch(text);
      case Some(CurrentLimitCommand) => HandleCurrentLimit(parseAmps(text), rt);
      case Some(ModeCommand) => HandleMode(text);
      case Some(EnablePluginCommand) => HandleEnablePlugin(text);
      case None =>
    }

    /** `_handle_switch_command`. */
    method HandleSwitch(payload: string)
      modifies configDB
      ensures configDB.entries == old(configDB.entries) + SwitchWrites(payload)
    {
      var switchOn := Upper(payload) in ["ON", "TRUE", "1"];
      configDB.Set("switch", "enabled", Bool(true));
      configDB.Set("switch", "on", Bool(switchOn));
      configDB.Set("scheduler", "enabled", Bool(false));
    }

    /** `_handle_current_limit_command`, given the parsed payload. */
    method HandleCurrentLimit(amps: Option<int>, rt: Runtime)
      modifies configDB
      ensures configDB.entries == old(configDB.entries) + CurrentLimitWrites(amps, rt)
    {
      if amps.None? {
        return;
      }
      var currentLimit := amps.value;
      var maxAllowed := MaxAllowedCurrent(rt);
      if !(MIN_CHARGING_CURRENT <= currentLimit <= maxAllowed) {
        return;
      }
      configDB.Set("switch", "amps", Int(currentLimit));
      configDB.Set("switch", "enabled", Bool(true));
      configDB.Set("scheduler", "enabled", Bool(false));
    }

    /** `_handle_mode_command`. */
    method HandleMode(payload: string)
      modifies configDB
      ensures configDB.entries == old(configDB.entries) + ModeWrites(payload)
    {
      var mode := Lower(payload);
      if mode == "manual" {
        configDB.Set("switch", "enabled", Bool(true));
        configDB.Set("scheduler", "enabled", Bool(false));
      } else if mode == "schedule" {
        configDB.Set("scheduler", "enabled", Bool(true));
        configDB.Set("switch", "enabled", Bool(false));
      } else if mode == "off" {
        configDB.Set("scheduler", "enabled", Bool(false));
        configDB.Set("switch", "enabled", Bool(false));
      }
    }

    /** `_handle_enable_plugin_command`. */
    method HandleEnablePlugin(payload: string)
      modifies configDB
      ensures configDB.entries == old(configDB.entries) + EnablePluginWrites(payload)
    {
      if ':' !in payload {
        return;
      }
      var (pluginName, enabledText) := SplitAtFirst(payload, ':').value;
      var enabled := Lower(enabledText) in ["true", "on", "1", "enabled"];
      if pluginName !in ALLOWED_PLUGINS {
        return;
      }
      configDB.Set(pluginName, "enabled", Bool(enabled));
    }

    // -------------------------------------------------------- publications

    /** `_send_discovery`: while connected, publish the retained document of
        every catalogue entity and then record that discovery was sent.
        Each round publishes the same messages, so a repeat adds no new ones. */
    method SendDiscovery(rt: Runtime)
      modifies this`published, this`discoverySent
      ensures !connected ==> published == old(published) && discoverySent == old(discoverySent)
      ensures connected ==> published == old(published) + DiscoveryPublications(config, rt) && discoverySent
    {
      if !connected {
        return;
      }
      var device := DeviceInfoFor(config.deviceId, config.deviceName, rt);
      PublishDocuments(device, Catalogue(config.deviceId, MaxAllowedCurrent(rt)));
      discoverySent := true;
    }

    /** The loop of `_send_discovery`: publish the retained document of each
        entity under its discovery topic. */
    method PublishDocuments(device: DeviceInfo, entities: seq<Entity>)
      modifies this`published
      ensures published == old(published) + PublicationsOf(config, device, entities)
    {
      var discoveryPrefix := config.discoveryPrefix;
      var deviceId := config.deviceId;
      ghost var expected := PublicationsOf(config, device, entities);
      var i := 0;
      while i < |entities|
        invariant 0 <= i <= |entities|
        invariant published == old(published) + expected[..i]
      {
        var entity := entities[i];
        var document := BuildDocument(entity, deviceId, device);
        var topic := ConfigTopic(discoveryPrefix, entity.component, deviceId, entity.objectId);
        published := published + [Publication(topic, DiscoveryConfig(document), true)];
        assert expected[..i + 1] == expected[..i] + [expected[i]];
        i := i + 1;
      }
      assert expected[..i] == expected;
    }

    /** `_publish_state`: while connected, publish the current snapshot. */
    method PublishState(rt: Runtime, now: int)
      modifies this`published
      ensures published == old(published) +
        (if connected then [StatePublication(config.deviceId, configDB.entries, rt, now)] else [])
    {
      if !connected {
        return;
      }
      var snapshot := BuildSnapshot(configDB.entries, rt, now);
      published := published + [Publication(ChargerState.StateTopic(config.deviceId), StateReport(snapshot), false)];
    }

    /** `poll`, at clock reading `now`: inactive, it does nothing; otherwise it
        sends discovery if connected and not yet sent, and publishes state
        (recording the time) once the interval has elapsed. It always returns 0:
        this plugin never asks for a charging current. */
    method Poll(now: int, rt: Runtime) returns (result: int)
      modifies this`published, this`discoverySent, this`lastPublish
      ensures result == 0
      ensures !Active() ==>
        published == old(published) && discoverySent == old(discoverySent) && lastPublish == old(lastPublish)
      ensures Active() ==>
        var discovery := if connected && !old(discoverySent) then DiscoveryPublications(config, rt) else [];
        var due := now - old(lastPublish) >= config.publishInterval;
        var state := if due && connected then [StatePublication(config.deviceId, configDB.entries, rt, now)] else [];
        && published == old(published) + discovery + state
        && discoverySent == (old(discoverySent) || connected)
        && lastPublish == (if due then now else old(lastPublish))
    {
      if !mqttAvailable || !config.enabled {
        return 0;
      }
      var currentTime := now;
      var publishInterval := config.publishInterval;
      if connected && !discoverySent {
        SendDiscovery(rt);
      }
      if currentTime - lastPublish >= publishInterval {
        PublishState(rt, currentTime);
        lastPublish := currentTime;
      }
      return 0;
    }
  }
}
