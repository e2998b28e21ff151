/**
 What the router promises, message type by message type, and the laws that
 relate one dispatch to another.
 */
module DatalinkProperties {
  import opened MachineInts
  import opened Optional
  import opened Datalink

  /** PING is answered with PONG whatever the configuration, with no identity
      check, and is then handed to the module hook. */
  lemma PingAnswersPong(cfg: Config, ids: IdTable, v: Vehicle, buf: seq<u8>)
    requires Decodes(ids, buf, Ping)
    ensures ParseMsg(cfg, ids, v, buf, Ping) == [SendPong, ModuleHook(ids.ping)]
  {
  }

  /** A message addressed to another aircraft reaches only the module hook. */
  lemma ForeignMessageOnlyHook(cfg: Config, ids: IdTable, v: Vehicle, buf: seq<u8>, m: Msg)
    requires Decodes(ids, buf, m) && AltDefined(cfg, v, m)
    requires !Targeted(cfg, m)
    ensures ParseMsg(cfg, ids, v, buf, m) == [ModuleHook(buf[1])]
  {
  }

  /** A message type whose case is not compiled in falls through to
      `default`: only the module hook sees it. */
  lemma DisabledCaseOnlyHook(cfg: Config, ids: IdTable, v: Vehicle, buf: seq<u8>, m: Msg)
    requires Decodes(ids, buf, m) && AltDefined(cfg, v, m)
    requires m.Kind().Some? && !Enabled(cfg, m.Kind().value)
    ensures ParseMsg(cfg, ids, v, buf, m) == [ModuleHook(buf[1])]
  {
  }

  /** An id that no compiled-in case carries reaches only `default` and the
      module hook. */
  lemma UnknownIdOnlyHook(cfg: Config, ids: IdTable, v: Vehicle, buf: seq<u8>, m: Msg)
    requires Decodes(ids, buf, m) && AltDefined(cfg, v, m)
    requires forall k: Kind :: Enabled(cfg, k) ==> ids.Of(k) != buf[1]
    ensures ParseMsg(cfg, ids, v, buf, m) == [ModuleHook(buf[1])]
  {
  }

  /** SETTING for this aircraft stores the value and echoes the same
      index and value back in DL_VALUE. */
  lemma SettingEchoesValue(cfg: Config, ids: IdTable, v: Vehicle, buf: seq<u8>, i: u8, value: F32)
    requires Decodes(ids, buf, Setting(cfg.acId, i, value))
    ensures ParseMsg(cfg, ids, v, buf, Setting(cfg.acId, i, value))
         == [DlSetting(i, value), SendDlValue(i, value), ModuleHook(ids.setting)]
  {
  }

  /** GET_SETTING for this aircraft replies with the stored value. */
  lemma GetSettingReadsStore(cfg: Config, ids: IdTable, v: Vehicle, buf: seq<u8>, i: u8)
    requires Decodes(ids, buf, GetSetting(cfg.acId, i))
    ensures ParseMsg(cfg, ids, v, buf, GetSetting(cfg.acId, i))
         == [SendDlValue(i, v.settings(i)), ModuleHook(ids.getSetting)]
  {
  }

  /** The settings store after the calls `effs`, when it keeps every value
      written by `DlSetting` exactly. */
  function StoreAfter(v: Vehicle, effs: seq<Effect>): Vehicle
    decreases |effs|
  {
    if effs == [] then v
    else
      var v' := match effs[0]
        case DlSetting(i, x) => v.(settings := (j: u8) => if j == i then x else v.settings(j))
        case _ => v;
      StoreAfter(v', effs[1..])
  }

  /** SETTING followed by GET_SETTING of the same index, both for this
      aircraft, replies with the value just set. */
  lemma {:induction false} SetThenGetReturnsValue(
    cfg: Config, ids: IdTable, v: Vehicle, setBuf: seq<u8>, getBuf: seq<u8>, i: u8, value: F32)
    requires Decodes(ids, setBuf, Setting(cfg.acId, i, value))
    requires Decodes(ids, getBuf, GetSetting(cfg.acId, i))
    ensures
      var v' := StoreAfter(v, ParseMsg(cfg, ids, v, setBuf, Setting(cfg.acId, i, value)));
      ParseMsg(cfg, ids, v', getBuf, GetSetting(cfg.acId, i))[0] == SendDlValue(i, value)
  {
    var effs := ParseMsg(cfg, ids, v, setBuf, Setting(cfg.acId, i, value));
    SettingEchoesValue(cfg, ids, v, setBuf, i, value);
    var v1 := v.(settings := (j: u8) => if j == i then value else v.settings(j));
    assert StoreAfter(v, effs) == StoreAfter(v1, effs[1..]);
    assert StoreAfter(v1, effs[1..]) == StoreAfter(v1, effs[2..]);
    assert StoreAfter(v1, effs[2..]) == StoreAfter(v1, []);
    GetSettingReadsStore(cfg, ids, v1, getBuf, i);
  }

  /** MOVE_WP is dropped while the local coordinate origin is not valid. */
  lemma MoveWpWithoutOriginIgnored(cfg: Config, ids: IdTable, v: Vehicle, buf: seq<u8>, m: Msg)
    requires m.MoveWp? && Decodes(ids, buf, m)
    requires !v.localCoordValid
    ensures ParseMsg(cfg, ids, v, buf, m) == [ModuleHook(buf[1])]
  {
  }

  /** MOVE_WP for this aircraft with a valid origin moves the waypoint to the
      same latitude and longitude, at the ellipsoid height whose MSL height
      is the requested altitude. */
  lemma MoveWpConvertsAltitude(cfg: Config, ids: IdTable, v: Vehicle, buf: seq<u8>, m: Msg)
    requires m.MoveWp? && Decodes(ids, buf, m)
    requires cfg.useNavigation && m.acId == cfg.acId && v.localCoordValid
    requires AltConvertible(m.alt, v.origin)
    ensures
      var effs := ParseMsg(cfg, ids, v, buf, m);
      && |effs| == 2
      && effs[0].WaypointMoveLla?
      && effs[0].wpId == m.wpId
      && effs[0].lla.lat == m.lat && effs[0].lla.lon == m.lon
      && effs[0].lla.alt == m.alt - v.origin.hmsl + v.origin.ellipsoidAlt
      && MslAlt(effs[0].lla.alt, v.origin) == m.alt
  {
  }

  /** Converting an MSL height to the ellipsoid and back gives it again. */
  lemma EllipsoidAltRoundTrip(alt: i32, origin: LtpOrigin)
    requires AltConvertible(alt, origin)
    ensures MslAlt(EllipsoidAlt(alt, origin), origin) == alt
  {
  }

  /** The worked example: 10000 mm above MSL at an origin 5000 mm above MSL
      and 5200 mm above the ellipsoid is 10200 mm above the ellipsoid. */
  lemma EllipsoidAltExample()
    ensures EllipsoidAlt(10000, LtpOrigin(5000, 5200)) == 10200
  {
  }

  /** RC_3CH is forwarded with no identity check. */
  lemma Rc3ChIgnoresIdentity(cfg: Config, ids: IdTable, v: Vehicle, buf: seq<u8>, m: Msg)
    requires m.Rc3Ch? && Decodes(ids, buf, m) && cfg.rcTypeDatalink
    ensures ParseMsg(cfg, ids, v, buf, m)
         == [ParseRc3Ch(m.throttleMode, m.roll, m.pitch), ModuleHook(ids.rc3ch)]
  {
  }

  /** RC_4CH is forwarded exactly when it is addressed to this aircraft. */
  lemma Rc4ChNeedsIdentity(cfg: Config, ids: IdTable, v: Vehicle, buf: seq<u8>, m: Msg)
    requires m.Rc4Ch? && Decodes(ids, buf, m) && cfg.rcTypeDatalink
    ensures ParseMsg(cfg, ids, v, buf, m)
         == (if m.acId == cfg.acId
             then [ParseRc4Ch(m.mode, m.throttle, m.roll, m.pitch, m.yawStick)]
             else []) + [ModuleHook(ids.rc4ch)]
  {
  }

  /** BLOCK for this aircraft, with USE_NAVIGATION, makes navigation jump to
      the named block. */
  lemma BlockGoesToBlock(cfg: Config, ids: IdTable, v: Vehicle, buf: seq<u8>, m: Msg)
    requires m.Block? && Decodes(ids, buf, m) && cfg.useNavigation && m.acId == cfg.acId
    ensures ParseMsg(cfg, ids, v, buf, m) == [NavGotoBlock(m.blockId), ModuleHook(ids.block)]
  {
  }

  /** REMOTE_GPS_SMALL for this aircraft, with USE_GPS and GPS_DATALINK,
      passes its compact fix to the GPS parser unchanged. */
  lemma RemoteGpsSmallForwarded(cfg: Config, ids: IdTable, v: Vehicle, buf: seq<u8>, m: Msg)
    requires m.RemoteGpsSmall? && Decodes(ids, buf, m)
    requires cfg.useGps && cfg.gpsDatalink && m.acId == cfg.acId
    ensures ParseMsg(cfg, ids, v, buf, m)
         == [ParseGpsSmall(m.numsv, m.posXyz, m.speedXyz, m.heading), ModuleHook(ids.remoteGpsSmall)]
  {
  }

  /** REMOTE_GPS for this aircraft, with USE_GPS and GPS_DATALINK, passes
      its full fix to the GPS parser unchanged. */
  lemma RemoteGpsForwarded(cfg: Config, ids: IdTable, v: Vehicle, buf: seq<u8>, m: Msg)
    requires m.RemoteGps? && Decodes(ids, buf, m)
    requires cfg.useGps && cfg.gpsDatalink && m.acId == cfg.acId
    ensures ParseMsg(cfg, ids, v, buf, m) == [ParseGps(m.fix), ModuleHook(ids.remoteGps)]
  {
  }

  /** GPS_INJECT needs only USE_GPS, not GPS_DATALINK. */
  lemma GpsInjectNeedsOnlyUseGps(cfg: Config, ids: IdTable, v: Vehicle, buf: seq<u8>, m: Msg)
    requires m.GpsInject? && Decodes(ids, buf, m) && cfg.useGps && m.acId == cfg.acId
    ensures ParseMsg(cfg, ids, v, buf, m)
         == [GpsInjectData(m.packetId, m.dataLength, m.data), ModuleHook(ids.gpsInject)]
  {
  }

  /** Without GPS_DATALINK the remote GPS messages reach only the hook. */
  lemma RemoteGpsNeedsGpsDatalink(cfg: Config, ids: IdTable, v: Vehicle, buf: seq<u8>, m: Msg)
    requires (m.RemoteGps? || m.RemoteGpsSmall?) && Decodes(ids, buf, m)
    requires !cfg.gpsDatalink
    ensures ParseMsg(cfg, ids, v, buf, m) == [ModuleHook(buf[1])]
  {
  }

  /** GUIDED_SETPOINT_NED for this aircraft, in every configuration, calls the
      primitive its flags select, or none for an unknown flags value. */
  lemma GuidedSetpointDispatch(cfg: Config, ids: IdTable, v: Vehicle, buf: seq<u8>, m: Msg)
    requires m.GuidedSetpointNed? && Decodes(ids, buf, m) && m.acId == cfg.acId
    ensures ParseMsg(cfg, ids, v, buf, m)
         == (if m.flags in GUIDED_FLAGS
             then [Guided(GUIDED_FLAGS[m.flags], m.x, m.y, m.z, m.yaw)]
             else []) + [ModuleHook(ids.guidedSetpointNed)]
  {
  }

  /** Flags 0x70 select the velocity primitive, not the position one, even
      though the payload layout is the same as for flags 0x00. */
  lemma GuidedVelocityFlag(cfg: Config, ids: IdTable, v: Vehicle, buf: seq<u8>, x: F32, y: F32, z: F32, yaw: F32)
    requires Decodes(ids, buf, GuidedSetpointNed(cfg.acId, 0x70, x, y, z, yaw))
    ensures ParseMsg(cfg, ids, v, buf, GuidedSetpointNed(cfg.acId, 0x70, x, y, z, yaw))[0]
         == Guided(MoveNed, x, y, z, yaw)
  {
  }

  /** When a message leads to a subsystem call: its case is compiled in, it
      is addressed to this aircraft (or carries no target), a waypoint move
      has a valid origin, and guided flags are known. */
  predicate Acts(cfg: Config, v: Vehicle, m: Msg) {
    && m.Kind().Some?
    && Enabled(cfg, m.Kind().value)
    && Targeted(cfg, m)
    && (m.MoveWp? ==> v.localCoordValid)
    && (m.GuidedSetpointNed? ==> m.flags in GUIDED_FLAGS)
  }

  /** The router calls a subsystem exactly when `Acts` holds; otherwise the
      module hook is its only call. */
  lemma {:induction false} ActsIffSubsystemCall(cfg: Config, ids: IdTable, v: Vehicle, buf: seq<u8>, m: Msg)
    requires Decodes(ids, buf, m) && AltDefined(cfg, v, m)
    ensures |ParseMsg(cfg, ids, v, buf, m)| > 1 <==> Acts(cfg, v, m)
    ensures !Acts(cfg, v, m) ==> ParseMsg(cfg, ids, v, buf, m) == [ModuleHook(buf[1])]
  {
  }
}
