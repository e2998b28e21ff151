/**
 The rotorcraft uplink message router (`dl_parse_msg`).

 One complete message sits in the receive buffer. Its type id is the byte at
 index 1. The router switches on that id; most message types are dropped
 unless their embedded target aircraft id equals the build-time `AC_ID`; an
 accepted message makes at most one call into a subsystem; and every message,
 whatever happened before, is finally handed to the module hook
 `modules_parse_datalink(msg_id)`.

 The router is modelled as a pure function from the buffer, its decoded
 fields, the build configuration and the vehicle state to the sequence of
 calls it makes (`Effect`s), in order.
 */
module Datalink {
  import opened MachineInts
  import opened Optional

  /** An IEEE-754 single-precision value, carried as its raw bit pattern.
      The router never computes with floats; it only passes them on. */
  datatype F32 = F32(bits: u32)

  /** The build options that decide which cases of the switch exist. */
  datatype Config = Config(
    acId: u8,             // AC_ID
    useNavigation: bool,  // USE_NAVIGATION
    rcTypeDatalink: bool, // RADIO_CONTROL_TYPE_DATALINK
    useGps: bool,         // USE_GPS
    gpsDatalink: bool     // GPS_DATALINK
  )

  /** The uplink message types that have a case in the switch, by their
      protocol names. */
  datatype Kind =
    | PING | SETTING | GET_SETTING | BLOCK | MOVE_WP | RC_3CH | RC_4CH
    | REMOTE_GPS_SMALL | REMOTE_GPS | GPS_INJECT | GUIDED_SETPOINT_NED

  /** The generated `DL_*` message ids. Their numeric values come from the
      message schema, so they are a parameter of the model. */
  datatype IdTable = IdTable(
    ping: u8, setting: u8, getSetting: u8, block: u8, moveWp: u8,
    rc3ch: u8, rc4ch: u8, remoteGpsSmall: u8, remoteGps: u8,
    gpsInject: u8, guidedSetpointNed: u8)
  {
    function Of(k: Kind): u8 {
      match k
      case PING => ping
      case SETTING => setting
      case GET_SETTING => getSetting
      case BLOCK => block
      case MOVE_WP => moveWp
      case RC_3CH => rc3ch
      case RC_4CH => rc4ch
      case REMOTE_GPS_SMALL => remoteGpsSmall
      case REMOTE_GPS => remoteGps
      case GPS_INJECT => gpsInject
      case GUIDED_SETPOINT_NED => guidedSetpointNed
    }

    /** No two message types share an id. The generated ids have this
        property; the switch itself would only reject two equal labels that
        are both compiled in. */
    predicate Distinct() {
      forall k1: Kind, k2: Kind :: Of(k1) == Of(k2) ==> k1 == k2
    }
  }

  /** The full REMOTE_GPS fix, passed through to the GPS parser unchanged. */
  datatype GpsFix = GpsFix(
    numsv: int, ecefX: int, ecefY: int, ecefZ: int,
    lat: int, lon: int, alt: int, hmsl: int,
    ecefXd: int, ecefYd: int, ecefZd: int, tow: int, course: F32)

  /** A received message as the generated field accessors see it. Integer
      fields whose width the code does not fix are schema-defined and passed
      through as plain integers. `Other` is any message type without a case. */
  datatype Msg =
    | Ping
    | Setting(acId: u8, index: u8, value: F32)
    | GetSetting(acId: u8, index: u8)
    | Block(acId: u8, blockId: u8)
    | MoveWp(acId: u8, wpId: u8, lat: i32, lon: i32, alt: i32)
    | Rc3Ch(throttleMode: int, roll: int, pitch: int)
    | Rc4Ch(acId: u8, mode: int, throttle: int, roll: int, pitch: int, yawStick: int)
    | RemoteGpsSmall(acId: u8, numsv: int, posXyz: int, speedXyz: int, heading: int)
    | RemoteGps(acId: u8, fix: GpsFix)
    | GpsInject(acId: u8, packetId: int, dataLength: int, data: seq<u8>)
    | GuidedSetpointNed(acId: u8, flags: u8, x: F32, y: F32, z: F32, yaw: F32)
    | Other
  {
    /** The message type the fields belong to; `None` for `Other`. */
    function Kind(): Option<Kind> {
      match this
      case Ping => Some(PING)
      case Setting(_, _, _) => Some(SETTING)
      case GetSetting(_, _) => Some(GET_SETTING)
      case Block(_, _) => Some(BLOCK)
      case MoveWp(_, _, _, _, _) => Some(MOVE_WP)
      case Rc3Ch(_, _, _) => Some(RC_3CH)
      case Rc4Ch(_, _, _, _, _, _) => Some(RC_4CH)
      case RemoteGpsSmall(_, _, _, _, _) => Some(REMOTE_GPS_SMALL)
      case RemoteGps(_, _) => Some(REMOTE_GPS)
      case GpsInject(_, _, _, _) => Some(GPS_INJECT)
      case GuidedSetpointNed(_, _, _, _, _, _) => Some(GUIDED_SETPOINT_NED)
      case Other => None
    }
  }

  /** Origin of the local NED frame: its height above mean sea level and its
      height above the WGS84 ellipsoid, both in millimetres. */
  datatype LtpOrigin = LtpOrigin(hmsl: i32, ellipsoidAlt: i32)

  /** What the router reads of the vehicle: whether the local coordinate
      origin is valid, the origin itself, and the settings store as seen by
      `settings_get_value`. */
  datatype Vehicle = Vehicle(localCoordValid: bool, origin: LtpOrigin, settings: u8 -> F32)

  /** A geodetic position: latitude and longitude in 1e-7 degrees, altitude
      above the ellipsoid in millimetres. */
  datatype LlaCoor = LlaCoor(lat: i32, lon: i32, alt: i32)

  /** The four guided-mode primitives of the autopilot. */
  datatype GuidedCall = GotoNed | GotoNedRelative | GotoBodyRelative | MoveNed

  /** One call the router makes, in the order it makes them. */
  datatype Effect =
    | SendPong
    | DlSetting(index: u8, value: F32)
    | SendDlValue(index: u8, value: F32)
    | NavGotoBlock(blockId: u8)
    | WaypointMoveLla(wpId: u8, lla: LlaCoor)
    | ParseRc3Ch(throttleMode: int, roll: int, pitch: int)
    | ParseRc4Ch(mode: int, throttle: int, roll: int, pitch: int, yawStick: int)
    | ParseGpsSmall(numsv: int, posXyz: int, speedXyz: int, heading: int)
    | ParseGps(fix: GpsFix)
    | GpsInjectData(packetId: int, dataLength: int, data: seq<u8>)
    | Guided(call: GuidedCall, x: F32, y: F32, z: F32, yaw: F32)
    | ModuleHook(msgId: u8)

  /** The generated id table read backwards: which message type, if any,
      has the id `id`. */
  function Lookup(ids: IdTable, id: u8): (r: Option<Kind>)
    ensures r.Some? ==> ids.Of(r.value) == id
    ensures r.None? ==> forall k: Kind :: ids.Of(k) != id
  {
    if id == ids.ping then Some(PING)
    else if id == ids.setting then Some(SETTING)
    else if id == ids.getSetting then Some(GET_SETTING)
    else if id == ids.block then Some(BLOCK)
    else if id == ids.moveWp then Some(MOVE_WP)
    else if id == ids.rc3ch then Some(RC_3CH)
    else if id == ids.rc4ch then Some(RC_4CH)
    else if id == ids.remoteGpsSmall then Some(REMOTE_GPS_SMALL)
    else if id == ids.remoteGps then Some(REMOTE_GPS)
    else if id == ids.gpsInject then Some(GPS_INJECT)
    else if id == ids.guidedSetpointNed then Some(GUIDED_SETPOINT_NED)
    else None
  }

  /** `buf` holds a message whose fields, as the accessors read them, are
      `m`: the ids are the generated, pairwise distinct ones, and the id
      byte (byte 1, `IdOfMsg`) names exactly the type of `m`. The receive
      buffer is a fixed array, so byte 1 always exists. */
  predicate Decodes(ids: IdTable, buf: seq<u8>, m: Msg) {
    ids.Distinct() && |buf| >= 2 && Lookup(ids, buf[1]) == m.Kind()
  }

  /** Whether the case for `k` is compiled in. BLOCK and MOVE_WP need
      USE_NAVIGATION; the RC cases need RADIO_CONTROL_TYPE_DATALINK; the
      remote GPS cases need USE_GPS and GPS_DATALINK; GPS_INJECT needs only
      USE_GPS; the other cases are always present. */
  predicate Enabled(cfg: Config, k: Kind) {
    match k
    case PING | SETTING | GET_SETTING | GUIDED_SETPOINT_NED => true
    case BLOCK | MOVE_WP => cfg.useNavigation
    case RC_3CH | RC_4CH => cfg.rcTypeDatalink
    case REMOTE_GPS_SMALL | REMOTE_GPS => cfg.useGps && cfg.gpsDatalink
    case GPS_INJECT => cfg.useGps
  }

  /** The arm of the switch that id `id` selects; `None` is `default`. */
  function Branch(cfg: Config, ids: IdTable, id: u8): (r: Option<Kind>)
    ensures r.Some? ==> Enabled(cfg, r.value) && ids.Of(r.value) == id
    ensures r.None? <==> forall k: Kind :: Enabled(cfg, k) ==> ids.Of(k) != id
  {
    if id == ids.ping then Some(PING)
    else if id == ids.setting then Some(SETTING)
    else if id == ids.getSetting then Some(GET_SETTING)
    else if cfg.useNavigation && id == ids.block then Some(BLOCK)
    else if cfg.useNavigation && id == ids.moveWp then Some(MOVE_WP)
    else if cfg.rcTypeDatalink && id == ids.rc3ch then Some(RC_3CH)
    else if cfg.rcTypeDatalink && id == ids.rc4ch then Some(RC_4CH)
    else if cfg.useGps && cfg.gpsDatalink && id == ids.remoteGpsSmall then Some(REMOTE_GPS_SMALL)
    else if cfg.useGps && cfg.gpsDatalink && id == ids.remoteGps then Some(REMOTE_GPS)
    else if cfg.useGps && id == ids.gpsInject then Some(GPS_INJECT)
    else if id == ids.guidedSetpointNed then Some(GUIDED_SETPOINT_NED)
    else None
  }

  /** The message is addressed to this aircraft, or its type carries no
      target id (PING, RC_3CH, and types without a case). */
  predicate Targeted(cfg: Config, m: Msg) {
    match m
    case Ping | Rc3Ch(_, _, _) | Other => true
    case _ => m.acId == cfg.acId
  }

  /** The guided flags the autopilot understands, and the primitive each
      selects. */
  const GUIDED_FLAGS: map<u8, GuidedCall> :=
    map[0x00 := GotoNed, 0x02 := GotoNed, 0x01 := GotoNedRelative,
        0x03 := GotoBodyRelative, 0x70 := MoveNed]

  /** The inner switch of GUIDED_SETPOINT_NED on its `flags` byte. */
  function GuidedCallOf(flags: u8): (r: Option<GuidedCall>)
    ensures r.Some? <==> flags in GUIDED_FLAGS
    ensures r.Some? ==> r.value == GUIDED_FLAGS[flags]
  {
    match flags
    case 0x00 | 0x02 => Some(GotoNed)
    case 0x01 => Some(GotoNedRelative)
    case 0x03 => Some(GotoBodyRelative)
    case 0x70 => Some(MoveNed)
    case _ => None
  }

  /** The MSL-to-ellipsoid conversion is free of C signed overflow: both the
      intermediate `alt - hmsl` and the result fit in an `int32_t`. */
  predicate AltConvertible(alt: i32, origin: LtpOrigin) {
    IsI32(alt - origin.hmsl) && IsI32(alt - origin.hmsl + origin.ellipsoidAlt)
  }

  /** Height above the ellipsoid of a point `alt` millimetres above mean sea
      level, using the separation between the two datums at the origin. */
  function EllipsoidAlt(alt: i32, origin: LtpOrigin): (r: i32)
    requires AltConvertible(alt, origin)
    ensures r - alt == origin.ellipsoidAlt - origin.hmsl
  {
    alt - origin.hmsl + origin.ellipsoidAlt
  }

  /** Height above mean sea level of a point `alt` millimetres above the
      ellipsoid: the inverse of `EllipsoidAlt`. */
  function MslAlt(alt: int, origin: LtpOrigin): int {
    alt - origin.ellipsoidAlt + origin.hmsl
  }

  /** The router would compute the waypoint altitude for `m`, and that
      computation does not overflow. */
  predicate AltDefined(cfg: Config, v: Vehicle, m: Msg) {
    (m.MoveWp? && cfg.useNavigation && m.acId == cfg.acId && v.localCoordValid) ==>
      AltConvertible(m.alt, v.origin)
  }

  /** The body of the case arm for `m`, once the switch has chosen it. */
  function Arm(cfg: Config, v: Vehicle, m: Msg): seq<Effect>
    requires AltDefined(cfg, v, m) && (m.MoveWp? ==> cfg.useNavigation)
  {
    match m
    case Ping => [SendPong]
    case Setting(ac, i, value) =>
      if ac != cfg.acId then [] else [DlSetting(i, value), SendDlValue(i, value)]
    case GetSetting(ac, i) =>
      if ac != cfg.acId then [] else [SendDlValue(i, v.settings(i))]
    case Block(ac, b) =>
      if ac != cfg.acId then [] else [NavGotoBlock(b)]
    case MoveWp(ac, wp, lat, lon, alt) =>
      if ac != cfg.acId then []
      else if !v.localCoordValid then []
      else [WaypointMoveLla(wp, LlaCoor(lat, lon, EllipsoidAlt(alt, v.origin)))]
    case Rc3Ch(tm, roll, pitch) => [ParseRc3Ch(tm, roll, pitch)]
    case Rc4Ch(ac, mode, throttle, roll, pitch, yaw) =>
      if ac == cfg.acId then [ParseRc4Ch(mode, throttle, roll, pitch, yaw)] else []
    case RemoteGpsSmall(ac, numsv, pos, speed, heading) =>
      if ac != cfg.acId then [] else [ParseGpsSmall(numsv, pos, speed, heading)]
    case RemoteGps(ac, fix) =>
      if ac != cfg.acId then [] else [ParseGps(fix)]
    case GpsInject(ac, packetId, len, data) =>
      if ac != cfg.acId then [] else [GpsInjectData(packetId, len, data)]
    case GuidedSetpointNed(ac, flags, x, y, z, yaw) =>
      if ac != cfg.acId then []
      else (match GuidedCallOf(flags)
        case Some(call) => [Guided(call, x, y, z, yaw)]
        case None => [])
    case Other => []
  }

  /** `dl_parse_msg`: the calls made for the message in `buf`, whose fields
      are `m`. */
  function ParseMsg(cfg: Config, ids: IdTable, v: Vehicle, buf: seq<u8>, m: Msg): (effs: seq<Effect>)
    requires Decodes(ids, buf, m)
    requires AltDefined(cfg, v, m)
    ensures 1 <= |effs| <= 3
    ensures effs[|effs| - 1] == ModuleHook(buf[1])
    ensures forall i :: 0 <= i < |effs| - 1 ==> !effs[i].ModuleHook?
    ensures |effs| > 1 ==> Branch(cfg, ids, buf[1]) == m.Kind() && Targeted(cfg, m)
    ensures |effs| == 3 ==>
      effs[0].DlSetting? && effs[1] == SendDlValue(effs[0].index, effs[0].value)
  {
    var msgId := buf[1];
    var arm := Branch(cfg, ids, msgId);
    (if arm.Some? then Arm(cfg, v, m) else []) + [ModuleHook(msgId)]
  }
}
