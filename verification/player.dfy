/**
 * The player records of `player.py`: the DeviceInfo serialization hook,
 * the PlayerMedia defaults, and the Player record with its derived
 * `corrected_elapsed_time`, its `current_item_id` accessor pair and its
 * two server-only fields.
 */
module PlayerModel {
  import opened Wrappers
  import opened Values
  import opened Enums

  // ---------------------------------------------------------------------
  // DeviceInfo

  /** A player's hardware/software identity (a frozen record). */
  datatype DeviceInfo = DeviceInfo(
    model: string,
    manufacturer: string,
    softwareVersion: Option<string>,
    modelId: Option<string>,
    manufacturerId: Option<string>,
    ipAddress: Option<string>,
    macAddress: Option<string>)

  /** `DeviceInfo()` with every field at its declared default. */
  function DefaultDeviceInfo(): (info: DeviceInfo)
    ensures info.model == "Unknown model" && info.manufacturer == "Unknown Manufacturer"
    ensures info.softwareVersion.None? && info.modelId.None? && info.manufacturerId.None?
    ensures info.ipAddress.None? && info.macAddress.None?
  {
    DeviceInfo("Unknown model", "Unknown Manufacturer", None, None, None, None, None)
  }

  /**
   * The serialization hook of DeviceInfo: the encoded dict gains a legacy
   * `address` key holding `d.get("ip_address") or ""`, that is the IP
   * address when it is truthy and the empty string otherwise. No other
   * key is touched.
   */
  function PostSerialize(d: Payload): (r: Payload)
    ensures r.Keys == d.Keys + {"address"}
    ensures forall k :: k in d && k != "address" ==> r[k] == d[k]
    ensures "ip_address" in d && Truthy(d["ip_address"]) ==> r["address"] == d["ip_address"]
    ensures !("ip_address" in d && Truthy(d["ip_address"])) ==> r["address"] == Str("")
  {
    var ip := if "ip_address" in d then d["ip_address"] else Null;
    d["address" := if Truthy(ip) then ip else Str("")]
  }

  /** The keys the structural encoder writes for a DeviceInfo, one per declared field. */
  const DeviceInfoKeys: set<string> :=
    {"model", "manufacturer", "software_version", "model_id", "manufacturer_id", "ip_address", "mac_address"}

  /** The structural encoding of a DeviceInfo before the hook runs: one key per field. */
  function EncodeFields(info: DeviceInfo): (d: Payload)
    ensures d.Keys == DeviceInfoKeys
  {
    map[
      "model" := Str(info.model),
      "manufacturer" := Str(info.manufacturer),
      "software_version" := OptionalStr(info.softwareVersion),
      "model_id" := OptionalStr(info.modelId),
      "manufacturer_id" := OptionalStr(info.manufacturerId),
      "ip_address" := OptionalStr(info.ipAddress),
      "mac_address" := OptionalStr(info.macAddress)]
  }

  /**
   * The wire form of a DeviceInfo (`to_dict()`): the structural encoding
   * followed by the hook. It carries the seven field keys, each unchanged,
   * plus `address`, equal to the IP address when one is set and to "" when
   * it is unset or empty.
   */
  function SerializeDeviceInfo(info: DeviceInfo): (r: Payload)
    ensures r.Keys == DeviceInfoKeys + {"address"}
    ensures forall k :: k in DeviceInfoKeys ==> r[k] == EncodeFields(info)[k]
    ensures r["ip_address"] == OptionalStr(info.ipAddress)
    ensures r["address"] == Str(if info.ipAddress.Some? then info.ipAddress.value else "")
  {
    var d := EncodeFields(info);
    assert d["ip_address"] == OptionalStr(info.ipAddress);
    PostSerialize(d)
  }

  /** The two concrete cases: an address is aliased, a default record yields "". */
  lemma SerializedAddressExamples()
    ensures SerializeDeviceInfo(DefaultDeviceInfo().(ipAddress := Some("10.0.0.5")))["address"] == Str("10.0.0.5")
    ensures SerializeDeviceInfo(DefaultDeviceInfo())["address"] == Str("")
  {
  }

  // ---------------------------------------------------------------------
  // PlayerMedia and PlayerSource

  /** Metadata of the media loading or loaded into a player. */
  datatype PlayerMedia = PlayerMedia(
    uri: string,
    mediaType: MediaType,
    title: Option<string>,
    artist: Option<string>,
    album: Option<string>,
    imageUrl: Option<string>,
    duration: Option<int>,
    queueId: Option<string>,
    queueItemId: Option<string>,
    customData: Option<Payload>)

  /** `PlayerMedia(uri)`: the given uri, media type UNKNOWN and no metadata at all. */
  function NewPlayerMedia(uri: string): (m: PlayerMedia)
    ensures m.uri == uri && m.mediaType == Unknown
    ensures m.title.None? && m.artist.None? && m.album.None? && m.imageUrl.None?
    ensures m.duration.None? && m.queueId.None? && m.queueItemId.None? && m.customData.None?
  {
    PlayerMedia(uri, Unknown, None, None, None, None, None, None, None, None)
  }

  /** A selectable (or passive) native source of a player. */
  datatype PlayerSource = PlayerSource(id: string, name: string, passive: bool)

  // ---------------------------------------------------------------------
  // Field metadata of Player

  /** A declared field of Player and whether the encoder emits it. */
  datatype FieldSpec = FieldSpec(name: string, serialized: bool)

  /** A field sent to clients. */
  function Plain(name: string): (f: FieldSpec)
  {
    FieldSpec(name, true)
  }

  /** A server-only field, which the encoder omits. */
  function ServerOnly(name: string): (f: FieldSpec)
  {
    FieldSpec(name, false)
  }

  /** The declared fields of Player, in declaration order. */
  const PlayerFields: seq<FieldSpec> := [
    Plain("player_id"), Plain("provider"), Plain("type"), Plain("name"),
    Plain("available"), Plain("device_info"), Plain("supported_features"),
    Plain("state"), Plain("elapsed_time"), Plain("elapsed_time_last_updated"),
    Plain("powered"), Plain("volume_level"), Plain("volume_muted"),
    Plain("group_childs"), Plain("can_group_with"), Plain("synced_to"),
    Plain("active_source"), Plain("source_list"), Plain("active_group"),
    Plain("current_media"), Plain("enabled_by_default"), Plain("needs_poll"),
    Plain("poll_interval"), Plain("enabled"), Plain("hidden"), Plain("icon"),
    Plain("group_volume"), Plain("display_name"), Plain("extra_data"),
    Plain("announcement_in_progress"), Plain("power_control"),
    Plain("volume_control"), Plain("mute_control"),
    ServerOnly("previous_volume_level"), ServerOnly("last_poll")
  ]

  /** The names of the server-only fields. */
  const ServerOnlyFields: set<string> := {"previous_volume_level", "last_poll"}

  /** The keys of the encoded dict: the names of the fields of `fs` that the encoder emits. */
  function SerializedKeys(fs: seq<FieldSpec>): (keys: set<string>)
  {
    if fs == [] then {}
    else (if fs[0].serialized then {fs[0].name} else {}) + SerializedKeys(fs[1..])
  }

  /** A name is an encoded key exactly when some emitted field has that name. */
  lemma {:induction false} SerializedKeysIff(fs: seq<FieldSpec>, n: string)
    ensures n in SerializedKeys(fs) <==> exists i :: 0 <= i < |fs| && fs[i].serialized && fs[i].name == n
  {
    if fs != [] {
      SerializedKeysIff(fs[1..], n);
      if n in SerializedKeys(fs[1..]) {
        var i :| 0 <= i < |fs[1..]| && fs[1..][i].serialized && fs[1..][i].name == n;
        assert fs[i + 1] == fs[1..][i];
      }
      if exists i :: 0 <= i < |fs| && fs[i].serialized && fs[i].name == n {
        var i :| 0 <= i < |fs| && fs[i].serialized && fs[i].name == n;
        if i > 0 { assert fs[1..][i - 1] == fs[i]; }
      }
    }
  }

  /** Exactly the server-only fields are left out of serialization. */
  ghost predicate ServerOnlyExactly(fs: seq<FieldSpec>) {
    forall i :: 0 <= i < |fs| ==> (fs[i].serialized <==> fs[i].name !in ServerOnlyFields)
  }

  /** The Player table marks exactly `previous_volume_level` and `last_poll` as omitted. */
  lemma PlayerFieldsMetadata()
    ensures ServerOnlyExactly(PlayerFields)
  {
  }

  /**
   * In a table marked that way, the encoded keys are exactly the declared
   * names that are not server-only.
   */
  lemma SerializedKeysOfServerOnlyExactly(fs: seq<FieldSpec>)
    requires ServerOnlyExactly(fs)
    ensures ServerOnlyFields !! SerializedKeys(fs)
    ensures forall i :: 0 <= i < |fs| && fs[i].name !in ServerOnlyFields ==> fs[i].name in SerializedKeys(fs)
  {
    SerializedKeysIff(fs, "previous_volume_level");
    SerializedKeysIff(fs, "last_poll");
    forall i | 0 <= i < |fs| && fs[i].name !in ServerOnlyFields
      ensures fs[i].name in SerializedKeys(fs)
    {
      SerializedKeysIff(fs, fs[i].name);
    }
  }

  /**
   * A serialized Player never carries `previous_volume_level` or `last_poll`,
   * and every other declared field is serialized.
   */
  lemma ServerOnlyFieldsOmitted()
    ensures ServerOnlyFields !! SerializedKeys(PlayerFields)
    ensures forall i :: 0 <= i < |PlayerFields| && PlayerFields[i].name !in ServerOnlyFields ==>
      PlayerFields[i].name in SerializedKeys(PlayerFields)
  {
    PlayerFieldsMetadata();
    SerializedKeysOfServerOnlyExactly(PlayerFields);
  }

  // ---------------------------------------------------------------------
  // Player

  /** The values of every field Player equality compares (all but the server-only two). */
  datatype ComparedFields = ComparedFields(
    playerId: string, provider: string, playerType: PlayerType, name: string,
    available: bool, deviceInfo: DeviceInfo, supportedFeatures: set<PlayerFeature>,
    state: Option<PlayerState>, elapsedTime: Option<real>, elapsedTimeLastUpdated: Option<real>,
    powered: Option<bool>, volumeLevel: Option<int>, volumeMuted: Option<bool>,
    groupChilds: seq<string>, canGroupWith: set<string>, syncedTo: Option<string>,
    activeSource: Option<string>, sourceList: seq<PlayerSource>, activeGroup: Option<string>,
    currentMedia: Option<PlayerMedia>, enabledByDefault: bool, needsPoll: bool,
    pollInterval: int, enabled: bool, hidden: bool, icon: string, groupVolume: int,
    displayName: string, extraData: Payload, announcementInProgress: bool,
    powerControl: string, volumeControl: string, muteControl: string)

  /** The default of the three control fields; its value is defined outside this model. */
  const PlayerControlNative: string

  /** A player within the system; a mutable record. */
  class Player {
    var playerId: string
    var provider: string
    var playerType: PlayerType
    var name: string
    var available: bool
    var deviceInfo: DeviceInfo
    var supportedFeatures: set<PlayerFeature>
    var state: Option<PlayerState>
    var elapsedTime: Option<real>
    var elapsedTimeLastUpdated: Option<real>
    var powered: Option<bool>
    var volumeLevel: Option<int>
    var volumeMuted: Option<bool>
    var groupChilds: seq<string>
    var canGroupWith: set<string>
    var syncedTo: Option<string>
    var activeSource: Option<string>
    var sourceList: seq<PlayerSource>
    var activeGroup: Option<string>
    var currentMedia: Option<PlayerMedia>
    var enabledByDefault: bool
    var needsPoll: bool
    var pollInterval: int
    var enabled: bool
    var hidden: bool
    var icon: string
    var groupVolume: int
    var displayName: string
    var extraData: Payload
    var announcementInProgress: bool
    var powerControl: string
    var volumeControl: string
    var muteControl: string
    // server-only bookkeeping
    var previousVolumeLevel: Option<int>
    var lastPoll: real

    /** A player with the six required fields given and every other field at its default. */
    constructor (playerId: string, provider: string, playerType: PlayerType, name: string,
                 available: bool, deviceInfo: DeviceInfo)
      ensures Compared() == ComparedFields(
        playerId, provider, playerType, name, available, deviceInfo, {},
        None, None, None, None, None, None,
        [], {}, None, None, [], None, None,
        true, false, 30, true, false, "mdi-speaker", 100, "", map[], false,
        PlayerControlNative, PlayerControlNative, PlayerControlNative)
      ensures previousVolumeLevel.None? && lastPoll == 0.0
    {
      this.playerId := playerId;
      this.provider := provider;
      this.playerType := playerType;
      this.name := name;
      this.available := available;
      this.deviceInfo := deviceInfo;
      supportedFeatures := {};
      state := None;
      elapsedTime := None;
      elapsedTimeLastUpdated := None;
      powered := None;
      volumeLevel := None;
      volumeMuted := None;
      groupChilds := [];
      canGroupWith := {};
      syncedTo := None;
      activeSource := None;
      sourceList := [];
      activeGroup := None;
      currentMedia := None;
      enabledByDefault := true;
      needsPoll := false;
      pollInterval := 30;
      enabled := true;
      hidden := false;
      icon := "mdi-speaker";
      groupVolume := 100;
      displayName := "";
      extraData := map[];
      announcementInProgress := false;
      powerControl := PlayerControlNative;
      volumeControl := PlayerControlNative;
      muteControl := PlayerControlNative;
      previousVolumeLevel := None;
      lastPoll := 0.0;
    }

    /** The fields equality compares, as one value. */
    function Compared(): ComparedFields
      reads this
    {
      ComparedFields(
        playerId, provider, playerType, name, available, deviceInfo, supportedFeatures,
        state, elapsedTime, elapsedTimeLastUpdated, powered, volumeLevel, volumeMuted,
        groupChilds, canGroupWith, syncedTo, activeSource, sourceList, activeGroup,
        currentMedia, enabledByDefault, needsPoll, pollInterval, enabled, hidden, icon,
        groupVolume, displayName, extraData, announcementInProgress,
        powerControl, volumeControl, muteControl)
    }

    /**
     * Player `==`: the generated equality compares every field except the
     * two server-only ones (`previous_volume_level`, `last_poll`).
     */
    predicate Equals(other: Player)
      reads this, other
      ensures Equals(other) <==> (
        playerId == other.playerId && provider == other.provider && playerType == other.playerType && name == other.name &&
        available == other.available && deviceInfo == other.deviceInfo && supportedFeatures == other.supportedFeatures && state == other.state &&
        elapsedTime == other.elapsedTime && elapsedTimeLastUpdated == other.elapsedTimeLastUpdated && powered == other.powered && volumeLevel == other.volumeLevel &&
        volumeMuted == other.volumeMuted && groupChilds == other.groupChilds && canGroupWith == other.canGroupWith && syncedTo == other.syncedTo &&
        activeSource == other.activeSource && sourceList == other.sourceList && activeGroup == other.activeGroup && currentMedia == other.currentMedia &&
        enabledByDefault == other.enabledByDefault && needsPoll == other.needsPoll && pollInterval == other.pollInterval && enabled == other.enabled &&
        hidden == other.hidden && icon == other.icon && groupVolume == other.groupVolume && displayName == other.displayName &&
        extraData == other.extraData && announcementInProgress == other.announcementInProgress && powerControl == other.powerControl && volumeControl == other.volumeControl &&
        muteControl == other.muteControl)
    {
      Compared() == other.Compared()
    }

    /**
     * `corrected_elapsed_time` at wall-clock time `now`: nothing when either
     * time is unset; extrapolated by the time since the last update while
     * PLAYING; the stored elapsed time in any other state.
     */
    function CorrectedElapsedTime(now: real): (r: Option<real>)
      reads this
      ensures elapsedTime.None? || elapsedTimeLastUpdated.None? ==> r.None?
      ensures elapsedTime.Some? && elapsedTimeLastUpdated.Some? && state != Some(Playing) ==>
        r == elapsedTime
      ensures elapsedTime.Some? && elapsedTimeLastUpdated.Some? && state == Some(Playing) ==>
        r == Some(elapsedTime.value + (now - elapsedTimeLastUpdated.value))
    {
      if elapsedTime.None? || elapsedTimeLastUpdated.None? then None
      else if state == Some(Playing) then
        Some(elapsedTime.value + (now - elapsedTimeLastUpdated.value))
      else elapsedTime
    }

    /**
     * The `current_item_id` getter: the uri of the current media when there
     * is one (a media record is always truthy), otherwise nothing.
     */
    function CurrentItemId(): (r: Option<string>)
      reads this
      ensures r.Some? <==> currentMedia.Some?
      ensures r.Some? ==> r.value == currentMedia.value.uri
    {
      match currentMedia
      case Some(m) => Some(m.uri)
      case None => None
    }

    /**
     * The `current_item_id` setter: replaces the current media wholesale by
     * `PlayerMedia(uri)`, dropping every piece of earlier metadata; no other
     * field changes.
     */
    method SetCurrentItemId(uri: string)
      modifies this`currentMedia
      ensures currentMedia == Some(NewPlayerMedia(uri))
      ensures CurrentItemId() == Some(uri)
      ensures Compared() == old(Compared()).(currentMedia := Some(NewPlayerMedia(uri)))
      ensures previousVolumeLevel == old(previousVolumeLevel) && lastPoll == old(lastPoll)
    {
      currentMedia := Some(NewPlayerMedia(uri));
    }
  }

  // ---------------------------------------------------------------------
  // Properties of the derived values

  /**
   * Writing the server-only fields (as the player manager does when it fakes
   * a mute, or records a poll) never changes whether two players are equal.
   */
  method EqualityIgnoresServerOnlyFields(p: Player, q: Player, volume: Option<int>, polled: real)
    requires p != q
    modifies p
    ensures p.Equals(q) <==> old(p.Equals(q))
    ensures q.Equals(p) <==> old(q.Equals(p))
  {
    p.previousVolumeLevel := volume;
    p.lastPoll := polled;
  }

  /** At the moment of the last update the corrected time is the stored one, whatever the state. */
  lemma ElapsedAtLastUpdate(p: Player, now: real)
    requires p.elapsedTime.Some? && p.elapsedTimeLastUpdated.Some?
    requires now == p.elapsedTimeLastUpdated.value
    ensures p.CorrectedElapsedTime(now) == p.elapsedTime
  {
  }

  /** While playing, the corrected time advances exactly as the clock does. */
  lemma ElapsedAdvancesWithClock(p: Player, now1: real, now2: real)
    requires p.elapsedTime.Some? && p.elapsedTimeLastUpdated.Some? && p.state == Some(Playing)
    ensures p.CorrectedElapsedTime(now1).Some? && p.CorrectedElapsedTime(now2).Some?
    ensures p.CorrectedElapsedTime(now2).value - p.CorrectedElapsedTime(now1).value == now2 - now1
    ensures now1 <= now2 ==> p.CorrectedElapsedTime(now1).value <= p.CorrectedElapsedTime(now2).value
  {
  }

  /**
   * The corrected time is not clamped: while playing, a clock reading earlier
   * than the last update puts it below the stored elapsed time, even below zero.
   */
  lemma ElapsedRunsBackwardsOnEarlierClock(p: Player, now: real)
    requires p.elapsedTime.Some? && p.elapsedTimeLastUpdated.Some? && p.state == Some(Playing)
    requires now < p.elapsedTimeLastUpdated.value
    ensures p.CorrectedElapsedTime(now).Some?
    ensures p.CorrectedElapsedTime(now).value < p.elapsedTime.value
    ensures p.elapsedTime.value == 1.0 && p.elapsedTimeLastUpdated.value == 100.0 && now == 50.0 ==>
      p.CorrectedElapsedTime(now) == Some(-49.0)
  {
  }

  /** A player that is not playing does not advance: its corrected time ignores the clock. */
  lemma ElapsedFrozenUnlessPlaying(p: Player, now1: real, now2: real)
    requires p.state != Some(Playing)
    ensures p.CorrectedElapsedTime(now1) == p.CorrectedElapsedTime(now2) == (
      if p.elapsedTimeLastUpdated.Some? then p.elapsedTime else None)
  {
  }

  /** Setting `current_item_id` discards the earlier title (and all other metadata). */
  method SetterDiscardsMetadata()
  {
    var player := new Player("kitchen", "sonos--1", PlayerType("player"), "Kitchen", true, DefaultDeviceInfo());
    player.currentMedia := Some(NewPlayerMedia("uri:1").(title := Some("X")));
    player.SetCurrentItemId("uri:123");
    assert player.currentMedia.value.title.None?;
    assert player.CurrentItemId() == Some("uri:123");
    assert player.name == "Kitchen";
  }
}
