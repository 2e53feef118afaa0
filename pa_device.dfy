/**
 * The device records of the PulseAudio manager: the parts of PulseAudio's
 * sink and source info structs that the program copies, the device record
 * built from them, and the name of a device's state.
 */
module PaDevice {
  import opened Wrappers

  /** uint32_t: device indices, volumes and counters of the C structs. */
  newtype u32 = x: int | 0 <= x < 0x1_0000_0000

  /** PA_VOLUME_NORM, the 0 dB reference level; the program's MAX_VOLUME. */
  const PA_VOLUME_NORM: u32 := 0x1_0000
  const MAX_VOLUME: u32 := PA_VOLUME_NORM

  /**
   * The values of pa_sink_state_t and pa_source_state_t in PulseAudio's
   * public header def.h; both enums use the same numbers.
   */
  const STATE_INVALID: int := -1
  const STATE_RUNNING: int := 0
  const STATE_IDLE: int := 1
  const STATE_SUSPENDED: int := 2
  const STATE_INIT: int := -2
  const STATE_UNLINKED: int := -3

  /** EPADeviceType: a device is a sink or a source, never both. */
  datatype DeviceType = Sink | Source

  /**
   * The fields of pa_sink_info that the device record copies. Strings are
   * C pointers that may be NULL, hence `Option`.
   */
  datatype SinkInfo = SinkInfo(
    name: Option<string>,
    index: u32,
    description: Option<string>,
    ownerModule: u32,
    volume: seq<u32>,
    mute: int,
    monitorSource: u32,
    monitorSourceName: Option<string>,
    driver: Option<string>,
    baseVolume: u32,
    state: int,
    nVolumeSteps: u32,
    card: u32)

  /** The fields of pa_source_info that the device record copies. */
  datatype SourceInfo = SourceInfo(
    name: Option<string>,
    index: u32,
    description: Option<string>,
    ownerModule: u32,
    volume: seq<u32>,
    mute: int,
    monitorOfSink: u32,
    monitorOfSinkName: Option<string>,
    driver: Option<string>,
    baseVolume: u32,
    state: int,
    nVolumeSteps: u32,
    card: u32)

  /**
   * PADeviceInfo. `monitorIndex` is the connected source of a sink and the
   * connected sink of a source. Only the state field that matches
   * `devType` is written by the constructors.
   */
  datatype Device = Device(
    name: string,
    index: u32,
    description: string,
    ownerModule: u32,
    volume: seq<u32>,
    mute: int,
    monitorIndex: u32,
    monitorName: string,
    driver: string,
    baseVolume: u32,
    stateSink: int,
    stateSource: int,
    nVolumeSteps: u32,
    card: u32,
    devType: DeviceType)

  /** `p ? p : ""`: a NULL C string becomes the empty string. */
  function OrEmpty(p: Option<string>): (s: string)
    ensures p.Some? ==> s == p.value
    ensures p.None? ==> s == ""
  {
    if p.Some? then p.value else ""
  }

  /** PADeviceInfo(const pa_sink_info&). */
  function FromSinkInfo(info: SinkInfo): (d: Device)
    ensures d.devType == Sink && d.index == info.index
    ensures d.monitorIndex == info.monitorSource
    ensures d.stateSink == info.state
    ensures d.name == OrEmpty(info.name) && d.volume == info.volume
  {
    Device(OrEmpty(info.name), info.index, OrEmpty(info.description), info.ownerModule,
           info.volume, info.mute, info.monitorSource, OrEmpty(info.monitorSourceName),
           OrEmpty(info.driver), info.baseVolume, info.state, STATE_INVALID,
           info.nVolumeSteps, info.card, Sink)
  }

  /** PADeviceInfo(const pa_source_info&). */
  function FromSourceInfo(info: SourceInfo): (d: Device)
    ensures d.devType == Source && d.index == info.index
    ensures d.monitorIndex == info.monitorOfSink
    ensures d.stateSource == info.state
    ensures d.name == OrEmpty(info.name) && d.volume == info.volume
  {
    Device(OrEmpty(info.name), info.index, OrEmpty(info.description), info.ownerModule,
           info.volume, info.mute, info.monitorOfSink, OrEmpty(info.monitorOfSinkName),
           OrEmpty(info.driver), info.baseVolume, STATE_INVALID, info.state,
           info.nVolumeSteps, info.card, Source)
  }

  /** The state field that `State()` consults: chosen by the device type. */
  function ActiveState(d: Device): int {
    match d.devType
    case Sink => d.stateSink
    case Source => d.stateSource
  }

  predicate IsKnownState(st: int) {
    st == STATE_RUNNING || st == STATE_IDLE || st == STATE_SUSPENDED
    || st == STATE_INIT || st == STATE_UNLINKED
  }

  /**
   * PADeviceInfo::State(): each of the five lifecycle states has its own
   * name, and every other enum value reads "unknown".
   */
  function StateName(d: Device): (r: string)
    ensures r == "running" <==> ActiveState(d) == STATE_RUNNING
    ensures r == "idle" <==> ActiveState(d) == STATE_IDLE
    ensures r == "suspended" <==> ActiveState(d) == STATE_SUSPENDED
    ensures r == "init" <==> ActiveState(d) == STATE_INIT
    ensures r == "unlinked" <==> ActiveState(d) == STATE_UNLINKED
    ensures r == "unknown" <==> !IsKnownState(ActiveState(d))
  {
    var st := if d.devType == Sink then d.stateSink else d.stateSource;
    if st == STATE_RUNNING then "running"
    else if st == STATE_IDLE then "idle"
    else if st == STATE_SUSPENDED then "suspended"
    else if st == STATE_INIT then "init"
    else if st == STATE_UNLINKED then "unlinked"
    else "unknown"
  }

  /** A sink's name depends only on its sink state, a source's only on its source state. */
  lemma StateNameIgnoresOtherKind(d: Device, other: int)
    ensures d.devType == Sink ==> StateName(d.(stateSource := other)) == StateName(d)
    ensures d.devType == Source ==> StateName(d.(stateSink := other)) == StateName(d)
  {
  }
}
