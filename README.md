# Home Assistant MQTT plugin for openeo — a Dafny model

openeo is a controller for an EV charger. Its Home Assistant plugin
(`lib/homeassistant.py`) connects to an MQTT broker and does four things:

- it announces the charger to Home Assistant with fifteen retained
  *discovery* messages, one per entity;
- it publishes a *state* document at a fixed interval;
- it listens on four *command* topics: switch, current limit, mode and
  enable-plugin;
- it applies each command to the shared configuration store (`configDB`).

The model covers these parts:

- `Text`: Python's `strip()`, ASCII `upper()`/`lower()` and `split(":", 1)`,
  with their properties.
- `ConfigStore`: the configuration store, a map from (plugin, key) to a value,
  held in the class `ConfigDB`. Its `Set` method updates the map in place.
- `Globals`: the minimum and maximum charging currents and the read-only runtime
  state the plugin consults. `MaxAllowedCurrent` is the smaller of the maximum
  and the user's overall limit.
- `Modes`: the three operating modes, how a mode is parsed from a payload,
  and how a mode is derived from the two enable flags.
- `Commands`: each command as the set of store writes it makes ("writes"
  maps), the routing by exact topic, and the properties of each command.
- `ChargerState`: the vehicle-connected and charging flags, and the state
  snapshot.
- `Discovery`: the fifteen-entity catalogue, unique ids, config topics, and
  discovery documents built field by field.
- `HomeAssistant`: the plugin itself, the class `Plugin`, with the
  `connected`, `discoverySent` and `lastPublish` fields. Its callbacks and
  `Poll` update these fields. Every publish is appended to `published` and
  every subscription to `subscriptions`.

Each command handler is a method that calls `ConfigDB.Set` once per key. Its
postcondition says the new store is the old store overwritten by the
command's writes map. Lemmas about those maps state what each command
promises: which keys it writes, with which values, and that every other key
is unchanged.

## Model

| member | source | states |
|---|---|---|
| Text.TrimStart | lib/homeassistant.py:141 | the result is a suffix of the input, everything dropped is whitespace, and the result does not start with whitespace |
| Text.TrimEnd | lib/homeassistant.py:141 | the result is a prefix of the input, everything dropped is whitespace, and the result does not end with whitespace |
| Text.Strip | lib/homeassistant.py:141 | the stripped payload is no longer than the input, and neither starts nor ends with whitespace |
| Text.TrimStartSkipsSpace | lib/homeassistant.py:141 | leading whitespace has no influence on the left-trimmed text |
| Text.TrimEndSkipsSpace | lib/homeassistant.py:141 | trailing whitespace has no influence on the right-trimmed text |
| Text.StripPadded | lib/homeassistant.py:141 | stripping a body padded with whitespace on both sides gives back exactly the body |
| Text.Upper | lib/homeassistant.py:164 | upper-casing keeps the length and maps each character through the ASCII upper-case mapping |
| Text.Lower | lib/homeassistant.py:209 | lower-casing keeps the length and maps each character through the ASCII lower-case mapping |
| Text.UpperMatchesIgnoringCase | lib/homeassistant.py:164 | for an upper-case word, the upper-cased payload equals the word exactly when the payload equals it ignoring case |
| Text.LowerMatchesIgnoringCase | lib/homeassistant.py:209 | for a lower-case word, the lower-cased payload equals the word exactly when the payload equals it ignoring case |
| Text.LowerOfLowerCase | lib/homeassistant.py:244 | lower-casing text without upper-case letters changes nothing |
| Text.UpperOfUpperCase | lib/homeassistant.py:164 | upper-casing text without lower-case letters changes nothing |
| Text.SplitAtFirst | lib/homeassistant.py:239-243 | there is no split exactly when the separator is absent; otherwise the input is head, separator, rest, and the head has no separator |
| Text.SplitAtFirstOf | lib/homeassistant.py:243 | splitting a head without the separator, joined to any rest, gives back that head and that rest |
| Text.AfterLast | lib/homeassistant.py:463 | the last segment is a suffix of the input and holds no separator |
| Text.AfterLastSegment | lib/homeassistant.py:463 | the last segment after a separator is the text that follows that separator |
| ConfigStore.WriteBatch | lib/homeassistant.py:167-171 | a batch of writes changes only its own keys, and each written key then reads back its written value |
| ConfigStore.ConfigDB.constructor | lib/homeassistant.py:491-492 | the store starts with the given entries |
| ConfigStore.Lookup | lib/homeassistant.py:491-492 | a present key reads its stored value; an absent key reads the default |
| ConfigStore.ConfigDB.Set | lib/homeassistant.py:167 | the store afterwards is the old store with exactly that key overwritten |
| Globals.MaxAllowedCurrent | lib/homeassistant.py:185-186 | the maximum allowed current is at most the controller maximum and at most the overall limit when one is set, and it equals one of the two |
| Modes.ParseModeIgnoresCase | lib/homeassistant.py:209-226 | a payload selects a mode exactly when it equals that mode's name ignoring case |
| Modes.ParseModeName | lib/homeassistant.py:211-226 | each mode's own name selects that mode |
| Modes.ModeOptionsParse | lib/homeassistant.py:440 | every option the select entity offers is a mode the mode command accepts, and every mode is offered |
| Modes.DeriveMode | lib/homeassistant.py:494-499 | the mode is manual exactly when switch is enabled and scheduler is not, schedule exactly when scheduler is enabled and switch is not, and off exactly when both flags agree |
| Commands.CommandTopics | lib/homeassistant.py:122-128 | the subscription list holds each command's topic and nothing else |
| Commands.CommandTopicInjective | lib/homeassistant.py:146-153 | the four command topics of one device are pairwise different |
| Commands.RouteExact | lib/homeassistant.py:146-155 | a topic is routed to a command exactly when it equals that command's topic |
| Commands.IsOnPayloadIgnoresCase | lib/homeassistant.py:164 | a switch payload means "on" exactly when it equals ON, TRUE or 1 ignoring case |
| Commands.SwitchWrites | lib/homeassistant.py:164-171 | the switch command always writes the same three keys: switch.enabled := true, switch.on := whether the payload means "on", scheduler.enabled := false |
| Commands.SwitchCommandEffect | lib/homeassistant.py:164-171 | after a switch command the derived mode is manual, switch.on is true exactly for an "on" payload, and no other key changes |
| Commands.CurrentLimitWrites | lib/homeassistant.py:178-204 | the current-limit command writes its three keys exactly when the payload parses to a value in [MIN, min(MAX, overall limit)], and nothing otherwise (values are rejected, never clamped); switch.amps gets the parsed value, switch.enabled true and scheduler.enabled false |
| Commands.CurrentLimitAccepted | lib/homeassistant.py:193-197 | an accepted limit sets switch.amps to the value, switch.enabled to true and scheduler.enabled to false, and changes nothing else |
| Commands.ModeWrites | lib/homeassistant.py:206-233 | the mode command writes the two enable flags exactly when the payload names a mode, and nothing otherwise: switch.enabled is true only for manual and scheduler.enabled only for schedule, so off writes (false, false) |
| Commands.ModeRoundTrip | lib/homeassistant.py:209-226 | after a mode command naming a mode, the derived mode is that mode, its name is the lower-cased payload, and nothing else changes |
| Commands.ModeNameRoundTrip | lib/homeassistant.py:211-226 | setting a mode by its name and then deriving the mode gives back that mode |
| Commands.EnablePluginWrites | lib/homeassistant.py:235-256 | a payload without ':' changes nothing; otherwise at most one key is written, and it is the enabled flag of an allow-listed plugin |
| Commands.EnablePluginSplit | lib/homeassistant.py:243-252 | for a plugin name without ':', an allowed name gets its enabled flag set to whether the remainder is true/on/1/enabled ignoring case; any other name changes nothing |
| Commands.SecondColonDisables | lib/homeassistant.py:243-244 | "scheduler:true:x" disables the scheduler, because only the first ':' splits |
| Commands.MessageWrites | lib/homeassistant.py:137-158 | a message writes only switch, scheduler and loadmanagement keys, and writes anything only when its topic is a command topic |
| Commands.MessageConfined | lib/homeassistant.py:146-157 | a message on any other topic leaves the store unchanged, and no message changes a key outside the writable set |
| ChargerState.VehicleConnected | lib/homeassistant.py:485 | a vehicle counts as connected exactly when the state id is in 7..16 |
| ChargerState.ChargingActive | lib/homeassistant.py:488 | charging counts as active exactly when the state id is in 11..14, so it implies a connected vehicle |
| ChargerState.BuildSnapshot | lib/homeassistant.py:480-521 | the state flags are "true" exactly in those ranges and "false" otherwise; the reported mode is the lower-case name of the mode stored in the flags (and parses back to it); the charger state defaults to "" and the app version to "unknown"; the state id defaults to 0; switch_on and switch_enabled are the stored values (false when absent); and the timestamp is the clock reading |
| Discovery.DeviceInfoFor | lib/homeassistant.py:258-266 | the device is identified by the device id and carries the configured name, manufacturer "OpenEO" and model "EV Charger Controller"; its version is the known app version, or "unknown" when none is known |
| Discovery.Catalogue | lib/homeassistant.py:278-446 | the catalogue holds 15 entities, one per entry of the publishing order: the ten sensors, the two binary sensors, then the switch, number and select controls |
| Discovery.ObjectIdsDistinct | lib/homeassistant.py:278-442 | different entries have different object ids, and no object id contains '/' |
| Discovery.PublishOrderDistinct | lib/homeassistant.py:446 | no entity appears twice in the published list |
| Discovery.ControlTopicRouted | lib/homeassistant.py:405-442 | an entity has a command topic exactly when it is a control, and the message handler routes that topic to the matching command |
| Discovery.NumberRangeIsAcceptedRange | lib/homeassistant.py:402-403 | the number entity's max is min(MAX, overall limit), and its [min, max] range is exactly the range the current-limit command accepts |
| Discovery.ModeSelectOptions | lib/homeassistant.py:440 | the select entity offers manual, schedule and off |
| Discovery.ExtrasAreOptionalFields | lib/homeassistant.py:458-461 | every field an entity defines is one the document copies |
| Discovery.UniqueIdInjective | lib/homeassistant.py:452 | within one device, different object ids give different unique ids |
| Discovery.ConfigTopicInjective | lib/homeassistant.py:463 | within one prefix and device, different object ids give different config topics |
| Discovery.CopiedFieldsContents | lib/homeassistant.py:458-461 | copying the optional fields yields exactly the listed fields the entity defines, each with the entity's value |
| Discovery.DiscoveryDocumentContents | lib/homeassistant.py:450-461 | a document holds name, unique id `{device_id}_{object_id}`, state topic and device, plus exactly the optional fields the entity defines, with their values |
| Discovery.BuildDocument | lib/homeassistant.py:450-461 | building the config dictionary field by field yields the discovery document |
| HomeAssistant.DiscoveryPublications | lib/homeassistant.py:449-470 | one discovery round publishes 15 messages, all retained, all discovery documents |
| HomeAssistant.DiscoveryPublicationsDistinct | lib/homeassistant.py:449-467 | the 15 discovery messages go to 15 different topics and announce 15 different unique ids |
| HomeAssistant.PublicationsOf | lib/homeassistant.py:449-470 | one retained discovery message per entity, in the entities' order, each on that entity's config topic with that entity's document |
| HomeAssistant.StatePublication | lib/homeassistant.py:523-528 | the state message is not retained and goes to `openeo/{device_id}/state` |
| HomeAssistant.Plugin.constructor | lib/homeassistant.py:55-59 | a new plugin is disconnected, has not sent discovery, has last published at 0, and has published and subscribed nothing |
| HomeAssistant.Plugin.OnConnect | lib/homeassistant.py:96-106 | a successful connect marks the plugin connected, subscribes to the four command topics and publishes discovery; a failed connect changes nothing |
| HomeAssistant.Plugin.OnDisconnect | lib/homeassistant.py:108-115 | any disconnect leaves the plugin disconnected and with discovery marked unsent |
| HomeAssistant.Plugin.SubscribeToCommands | lib/homeassistant.py:117-135 | while connected the plugin subscribes to the four command topics in order; otherwise it subscribes to nothing |
| HomeAssistant.Plugin.OnMessage | lib/homeassistant.py:137-158 | the store afterwards is the old store overwritten by the writes of the stripped payload on that topic |
| HomeAssistant.Plugin.HandleSwitch | lib/homeassistant.py:160-176 | the store afterwards is the old store overwritten by the switch command's writes |
| HomeAssistant.Plugin.HandleCurrentLimit | lib/homeassistant.py:178-204 | the store afterwards is the old store overwritten by the current-limit writes, so it is unchanged when the value is unparsable or out of range |
| HomeAssistant.Plugin.HandleMode | lib/homeassistant.py:206-233 | the store afterwards is the old store overwritten by the mode writes, so it is unchanged for an unknown mode |
| HomeAssistant.Plugin.HandleEnablePlugin | lib/homeassistant.py:235-256 | the store afterwards is the old store overwritten by the enable-plugin writes |
| HomeAssistant.Plugin.SendDiscovery | lib/homeassistant.py:268-473 | when disconnected nothing happens; when connected it appends the same 15 discovery messages on every call and marks discovery sent |
| HomeAssistant.Plugin.PublishDocuments | lib/homeassistant.py:449-470 | the loop publishes one retained document per entity, in catalogue order |
| HomeAssistant.Plugin.PublishState | lib/homeassistant.py:475-531 | when connected it appends one state message built from the current store; when disconnected it publishes nothing |
| HomeAssistant.Plugin.Poll | lib/homeassistant.py:533-551 | poll returns 0 and does nothing when MQTT is unavailable or the plugin is disabled. Otherwise it sends discovery if connected and not yet sent. It publishes state and sets the last-publish time to now exactly when now − last publish ≥ the interval |

## Left out

- The paho MQTT client is not modelled: creation, credentials, `connect_async`, `loop_start`, and the broker round trip (`lib/homeassistant.py:69-94`). Publishing and subscribing are modelled as appends to the `published` and `subscriptions` logs. A failing `publish` or `subscribe` is not modelled.
- Threads are not modelled. `_on_connect` and `poll` start discovery on a daemon thread; in the model, discovery runs to completion where the thread is started. Other interleavings and the cross-thread visibility of the flags are not captured.
- JSON text is not modelled. Documents are maps from field names to values, and `json.dumps` is not modelled.
- The Jinja `value_template` strings are opaque constants. They are a small `Template` datatype whose text `TemplateText` gives, and they are never evaluated.
- Float parsing is not modelled. `int(float(payload))` becomes the parameter `parseAmps`, which returns `None` where Python raises. `HandleCurrentLimit` takes the parsed value.
- Time is not modelled as floating point. `time.time()` becomes the integer parameter `now`, and the timestamp is that integer.
- `globalState` is not part of this model. The minimum and maximum currents are constants whose values the model leaves open. The runtime values (charger state, state id, overall limit, app version) are a `Runtime` value passed in, and a missing key is `None`.
- The telemetry fields the state document copies straight from the runtime state (amps, power, voltage, frequency, currents, serial errors) are not modelled.
- Logging, `get_user_settings` (a static settings schema) and `__del__` (disconnecting the client) are not modelled.
- The `MQTT_AVAILABLE` import probe is the `mqttAvailable` field.
- Decoding the payload as UTF-8 is not modelled. Payloads are strings, so a decoding failure (which the source logs and ignores) does not occur.
- Text.Upper: maps ASCII letters only, because Python's full Unicode case mapping can change the length of a string.
- Text.Lower: maps ASCII letters only, for the same reason.
- The store's values are booleans, integers or strings; other Python values are not modelled. The snapshot reports `switch_on` and `switch_enabled` as the stored values, and the mode is derived from their Python truthiness.
