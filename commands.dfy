/** The four remote commands: the topics they arrive on, how a topic is
    routed, and for each command the settings it writes into the shared
    configuration store (an empty batch when the payload is rejected). */
module Commands {
  import opened Optional
  import opened Text
  import opened ConfigStore
  import opened Globals
  import opened Modes

  datatype CommandKind = SwitchCommand | CurrentLimitCommand | ModeCommand | EnablePluginCommand

  function CommandName(k: CommandKind): string
  {
    match k
    case SwitchCommand => "switch"
    case CurrentLimitCommand => "current_limit"
    case ModeCommand => "mode"
    case EnablePluginCommand => "enable_plugin"
  }

  /** `openeo/{device_id}/command/{name}/set`. */
  function CommandTopic(deviceId: string, k: CommandKind): string
  {
    "openeo/" + deviceId + "/command/" + CommandName(k) + "/set"
  }

  /** The topics subscribed to after a connection, in subscription order. */
  function CommandTopics(deviceId: string): (ts: seq<string>)
    ensures forall k :: CommandTopic(deviceId, k) in ts
    ensures forall t :: t in ts ==> exists k :: t == CommandTopic(deviceId, k)
  {
    [CommandTopic(deviceId, SwitchCommand), CommandTopic(deviceId, CurrentLimitCommand),
     CommandTopic(deviceId, ModeCommand), CommandTopic(deviceId, EnablePluginCommand)]
  }

  /** Different commands listen on different topics of the same device. */
  lemma CommandTopicInjective(deviceId: string, k1: CommandKind, k2: CommandKind)
    ensures CommandTopic(deviceId, k1) == CommandTopic(deviceId, k2) ==> k1 == k2
  {
    var stem := "openeo/" + deviceId + "/command";
    forall k | true
      ensures AfterLast(CommandTopic(deviceId, k)[..|CommandTopic(deviceId, k)| - 4], '/') == CommandName(k)
    {
      var t := CommandTopic(deviceId, k);
      assert t[..|t| - 4] == stem + ['/'] + CommandName(k);
      AfterLastSegment(stem, CommandName(k), '/');
    }
    assert "current_limit"[0] != "enable_plugin"[0];
  }

  /** The handler a message topic is dispatched to: the exact-match chain of
      `_on_message`. */
  function Route(deviceId: string, topic: string): Option<CommandKind>
  {
    if topic == CommandTopic(deviceId, SwitchCommand) then Some(SwitchCommand)
    else if topic == CommandTopic(deviceId, CurrentLimitCommand) then Some(CurrentLimitCommand)
    else if topic == CommandTopic(deviceId, ModeCommand) then Some(ModeCommand)
    else if topic == CommandTopic(deviceId, EnablePluginCommand) then Some(EnablePluginCommand)
    else None
  }

  /** A topic is routed to a command exactly when it is that command's topic. */
  lemma RouteExact(deviceId: string, topic: string, k: CommandKind)
    ensures Route(deviceId, topic) == Some(k) <==> topic == CommandTopic(deviceId, k)
  {
    forall k1, k2 | true
      ensures CommandTopic(deviceId, k1) == CommandTopic(deviceId, k2) ==> k1 == k2
    {
      CommandTopicInjective(deviceId, k1, k2);
    }
  }

  // ---------------------------------------------------------------- switch/set

  /** `payload.upper() in ["ON", "TRUE", "1"]`. */
  predicate IsOnPayload(payload: string)
  {
    Upper(payload) in ["ON", "TRUE", "1"]
  }

  /** The switch payload means "on" exactly when it is ON, TRUE or 1 in any case. */
  lemma IsOnPayloadIgnoresCase(payload: string)
    ensures IsOnPayload(payload) <==>
      SameIgnoringCase(payload, "ON") || SameIgnoringCase(payload, "TRUE") || payload == "1"
  {
    UpperOfUpperCase("ON");
    UpperOfUpperCase("TRUE");
    UpperOfUpperCase("1");
    UpperMatchesIgnoringCase(payload, "ON");
    UpperMatchesIgnoringCase(payload, "TRUE");
    UpperMatchesIgnoringCase(payload, "1");
    if SameIgnoringCase(payload, "1") {
      assert payload == [payload[0]];
    }
  }

  const SWITCH_KEYS: set<Key> := {SWITCH_ENABLED, SWITCH_ON, SCHEDULER_ENABLED}

  /** `_handle_switch_command`: the switch plugin takes over, on or off, and
      the scheduler is turned off. */
  function SwitchWrites(payload: string): (w: Store)
    ensures w.Keys == SWITCH_KEYS
    ensures w[SWITCH_ENABLED] == Bool(true) && w[SCHEDULER_ENABLED] == Bool(false)
    ensures w[SWITCH_ON] == Bool(IsOnPayload(payload))
  {
    map[SWITCH_ENABLED := Bool(true),
        SWITCH_ON := Bool(IsOnPayload(payload)),
        SCHEDULER_ENABLED := Bool(false)]
  }

  /** After any switch command the store is in manual mode, the switch is on
      exactly for an "on" payload, and nothing outside the three keys moved. */
  lemma SwitchCommandEffect(store: Store, payload: string)
    ensures StoredMode(store + SwitchWrites(payload)) == Manual
    ensures Flag(store + SwitchWrites(payload), SWITCH_ON) == IsOnPayload(payload)
    ensures UnchangedOutside(store, store + SwitchWrites(payload), SWITCH_KEYS)
  {
    WriteBatch(store, SwitchWrites(payload));
  }

  // --------------------------------------------------------- current_limit/set

  const CURRENT_LIMIT_KEYS: set<Key> := {SWITCH_AMPS, SWITCH_ENABLED, SCHEDULER_ENABLED}

  /** `_handle_current_limit_command`, given the payload already parsed as
      `int(float(payload))` (`None` when that raises): an in-range value is
      stored as is and selects manual control; anything else writes nothing. */
  function CurrentLimitWrites(amps: Option<int>, rt: Runtime): (w: Store)
    ensures w.Keys == if amps.Some? && AcceptsCurrent(amps.value, rt) then CURRENT_LIMIT_KEYS else {}
    ensures SWITCH_AMPS in w ==> w[SWITCH_AMPS] == Int(amps.value)
    ensures SWITCH_ENABLED in w ==> w[SWITCH_ENABLED] == Bool(true)
    ensures SCHEDULER_ENABLED in w ==> w[SCHEDULER_ENABLED] == Bool(false)
  {
    match amps
    case None => map[]
    case Some(limit) =>
      if !(MIN_CHARGING_CURRENT <= limit <= MaxAllowedCurrent(rt)) then map[]
      else map[SWITCH_AMPS := Int(limit), SWITCH_ENABLED := Bool(true), SCHEDULER_ENABLED := Bool(false)]
  }

  /** An accepted current limit is stored unclamped within the controller's
      bounds, selects manual mode, and touches nothing else. */
  lemma CurrentLimitAccepted(store: Store, amps: int, rt: Runtime)
    requires AcceptsCurrent(amps, rt)
    ensures var after := store + CurrentLimitWrites(Some(amps), rt);
      && Lookup(after, SWITCH_AMPS, Int(0)) == Int(amps)
      && MIN_CHARGING_CURRENT <= amps <= MAX_CHARGING_CURRENT
      && (rt.overallLimit.Some? ==> amps <= rt.overallLimit.value)
      && StoredMode(after) == Manual
      && UnchangedOutside(store, after, CURRENT_LIMIT_KEYS)
  {
    WriteBatch(store, CurrentLimitWrites(Some(amps), rt));
  }

  // ------------------------------------------------------------------ mode/set

  const MODE_KEYS: set<Key> := {SWITCH_ENABLED, SCHEDULER_ENABLED}

  /** `_handle_mode_command`: the two enable flags a mode name selects; an
      unknown mode writes nothing. */
  function ModeWrites(payload: string): (w: Store)
    ensures w.Keys == if ParseMode(payload).Some? then MODE_KEYS else {}
    ensures ParseMode(payload).Some? ==>
      && w[SWITCH_ENABLED] == Bool(ParseMode(payload).value == Manual)
      && w[SCHEDULER_ENABLED] == Bool(ParseMode(payload).value == Schedule)
  {
    match ParseMode(payload)
    case None => map[]
    case Some(Manual) => map[SWITCH_ENABLED := Bool(true), SCHEDULER_ENABLED := Bool(false)]
    case Some(Schedule) => map[SCHEDULER_ENABLED := Bool(true), SWITCH_ENABLED := Bool(false)]
    case Some(Off) => map[SCHEDULER_ENABLED := Bool(false), SWITCH_ENABLED := Bool(false)]
  }

  /** Setting a mode and reading the mode back gives the mode that was set,
      whatever the store held before. */
  lemma ModeRoundTrip(store: Store, payload: string)
    requires ParseMode(payload).Some?
    ensures StoredMode(store + ModeWrites(payload)) == ParseMode(payload).value
    ensures ModeName(StoredMode(store + ModeWrites(payload))) == Lower(payload)
    ensures UnchangedOutside(store, store + ModeWrites(payload), MODE_KEYS)
  {
    WriteBatch(store, ModeWrites(payload));
  }

  /** In particular the mode names themselves round-trip. */
  lemma ModeNameRoundTrip(store: Store, m: Mode)
    ensures StoredMode(store + ModeWrites(ModeName(m))) == m
  {
    ParseModeName(m);
    ModeRoundTrip(store, ModeName(m));
  }

  // --------------------------------------------------------- enable_plugin/set

  /** The plugins a remote client may switch on or off. */
  const ALLOWED_PLUGINS: seq<string> := ["scheduler", "switch", "loadmanagement"]

  const PLUGIN_KEYS: set<Key> := {SCHEDULER_ENABLED, SWITCH_ENABLED, LOADMANAGEMENT_ENABLED}

  /** `enabled_str.lower() in ["true", "on", "1", "enabled"]`. */
  predicate IsEnabledWord(s: string)
  {
    Lower(s) in ["true", "on", "1", "enabled"]
  }

  /** `_handle_enable_plugin_command`: `plugin:flag`, split at the first colon;
      an allowed plugin gets its `enabled` setting, anything else writes nothing. */
  function EnablePluginWrites(payload: string): (w: Store)
    ensures ':' !in payload ==> w == map[]
    ensures w.Keys <= PLUGIN_KEYS && |w| <= 1
  {
    match SplitAtFirst(payload, ':')
    case None => map[]
    case Some((plugin, flag)) =>
      if plugin in ALLOWED_PLUGINS then map[(plugin, "enabled") := Bool(IsEnabledWord(flag))]
      else map[]
  }

  /** The plugin name is everything before the first colon and the flag is
      everything after it, later colons included. */
  lemma EnablePluginSplit(plugin: string, flag: string)
    requires ':' !in plugin
    ensures EnablePluginWrites(plugin + ":" + flag) ==
      if plugin in ALLOWED_PLUGINS then map[(plugin, "enabled") := Bool(IsEnabledWord(flag))]
      else map[]
  {
    SplitAtFirstOf(plugin, flag, ':');
  }

  /** A second colon ends up in the flag, which then reads as "disabled". */
  lemma SecondColonDisables()
    ensures EnablePluginWrites("scheduler:true:x") == map[SCHEDULER_ENABLED := Bool(false)]
  {
    var flag := "true:x";
    assert "scheduler:true:x" == "scheduler" + ":" + flag;
    assert |Lower(flag)| == 6;
    assert !IsEnabledWord(flag);
    assert "scheduler" in ALLOWED_PLUGINS;
    EnablePluginSplit("scheduler", flag);
  }

  // ------------------------------------------------------------------ dispatch

  /** Every key any command can write. */
  const WRITABLE_KEYS: set<Key> := SWITCH_KEYS + CURRENT_LIMIT_KEYS + MODE_KEYS + PLUGIN_KEYS

  /** `_on_message` after the payload is decoded and stripped (`amps` is that
      text parsed as a current): the settings the message writes. */
  function MessageWrites(deviceId: string, topic: string, text: string, amps: Option<int>, rt: Runtime): (w: Store)
    ensures w.Keys <= WRITABLE_KEYS
    ensures w != map[] ==> topic in CommandTopics(deviceId)
  {
    match Route(deviceId, topic)
    case None => map[]
    case Some(SwitchCommand) => SwitchWrites(text)
    case Some(CurrentLimitCommand) => CurrentLimitWrites(amps, rt)
    case Some(ModeCommand) => ModeWrites(text)
    case Some(EnablePluginCommand) => EnablePluginWrites(text)
  }

  /** A message on any topic other than the four command topics changes nothing,
      and no message changes a setting outside the writable keys. */
  lemma MessageConfined(store: Store, deviceId: string, topic: string, text: string, amps: Option<int>, rt: Runtime)
    ensures (forall k :: topic != CommandTopic(deviceId, k)) ==>
      store + MessageWrites(deviceId, topic, text, amps, rt) == store
    ensures UnchangedOutside(store, store + MessageWrites(deviceId, topic, text, amps, rt), WRITABLE_KEYS)
  {
    var w := MessageWrites(deviceId, topic, text, amps, rt);
    if forall k :: topic != CommandTopic(deviceId, k) {
      assert w == map[];
      assert store + w == store;
    }
    WriteBatch(store, w);
  }
}
