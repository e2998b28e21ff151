# Rotorcraft ground link: message router and telemetry rate reporter

A Dafny model of two small parts of the paparazzi rotorcraft datalink.

- **The uplink message router `dl_parse_msg`** (`firmwares/rotorcraft/datalink.c`).
  It reads the message id from byte 1 of the receive buffer and switches on it.
  Most message types are dropped unless their `ac_id` equals the build-time `AC_ID`.
  An accepted message makes at most one call into a subsystem.
  Every message, filtered or not, known or not, is finally passed to `modules_parse_datalink(msg_id)`.
  The model is the pure function `Datalink.ParseMsg`. It maps the buffer and its decoded fields, the build options and the vehicle state to the list of calls the router makes (`Effect`s), in order.
- **The telemetry rate reporter `send_downlink`** and the counter reset of `downlink_init` (`subsystems/datalink/downlink.c`).
  On each periodic tick the reporter computes the downlink byte rate and the uplink message rate since its previous report, then sends DATALINK_REPORT.
  The model is the pure step function `Downlink.Step(cfg, st, now, dev, up) -> (st', Option<Report>)`.
  It writes out the C arithmetic explicitly: unsigned 32-bit wrap-around, then truncation to `uint16_t`.

Files:

- `machine_ints.dfy`: the C integer types and the wrap/truncate conversions.
- `optional.dfy`: `Option`.
- `datalink.dfy`: messages, effects, build options, and the router.
- `datalink_properties.dfy`: the router's per-message guarantees, the identity filter, and the settings round trip.
- `downlink.dfy`: the reporter state, its step, and `downlink_init`.
- `downlink_properties.dfy`: the time guard, rate arithmetic examples, the counter-wrap law, and multi-tick behaviour.

Modelling choices:

- The build options `USE_NAVIGATION`, `RADIO_CONTROL_TYPE_DATALINK`, `USE_GPS` and `GPS_DATALINK` are boolean fields of `Datalink.Config`.
  A case that is compiled out falls through to `default`.
- The generated `DL_*` message ids are a parameter (`IdTable`), because their values come from the message schema.
  `Decodes` states that the generated ids are pairwise distinct and that the id byte (byte 1) names the type of the decoded fields.
- Floats are opaque bit patterns (`F32`) that are passed through unchanged.
  Integer fields whose width comes from the message schema are plain integers.
- `settings_get_value` is a total function `u8 -> F32` in the vehicle state.
- The router keeps no state of its own. Because `ParseMsg` is a function, the same buffer dispatched twice yields the same calls.

Two points of the code that are easy to misread, and that the model follows exactly:

- The reporter's guard is the unsigned comparison `now_ts > last_ts`, not a check on the elapsed time.
  So once the millisecond clock wraps, reports stop until the clock passes the last report time again (`StaleTickIgnored`).
- The previous counters are pinned to zero only on ticks that send a report.
  A stale tick changes nothing.

## Model

| member | source | states |
|---|---|---|
| Datalink.Lookup | sw/airborne/firmwares/rotorcraft/datalink.c:69-224 | the message type found for an id really carries that id, and if no type is found then no type carries it |
| Datalink.Branch | sw/airborne/firmwares/rotorcraft/datalink.c:69-224 | the switch picks a case only if it is compiled in and its label equals the id; it falls to `default` exactly when no compiled-in case has the id |
| Datalink.GuidedCallOf | sw/airborne/firmwares/rotorcraft/datalink.c:199-220 | flags 0x00 and 0x02 select goto_ned, 0x01 goto_ned_relative, 0x03 goto_body_relative, 0x70 move_ned; no other value selects a primitive |
| Datalink.EllipsoidAlt | sw/airborne/firmwares/rotorcraft/datalink.c:108-112 | the ellipsoid altitude differs from the MSL altitude by the origin's ellipsoid-minus-MSL separation, provided the int32 arithmetic does not overflow |
| Datalink.ParseMsg | sw/airborne/firmwares/rotorcraft/datalink.c:59-227 | the id is byte 1 of the buffer; every call ends with exactly one ModuleHook(buf[1]); at most two other calls come first, and a pair is always DlSetting followed by the DL_VALUE echo of the same index and value; any call before the hook implies the case was selected and the message is addressed to this aircraft, or is of a type that carries no target id |
| DatalinkProperties.PingAnswersPong | sw/airborne/firmwares/rotorcraft/datalink.c:71-74 | PING yields PONG and then the hook, with no identity check, in every configuration |
| DatalinkProperties.ForeignMessageOnlyHook | sw/airborne/firmwares/rotorcraft/datalink.c:76-193 | a message whose ac_id is not AC_ID has no effect except the module hook |
| DatalinkProperties.DisabledCaseOnlyHook | sw/airborne/firmwares/rotorcraft/datalink.c:93-190 | a message type whose case is compiled out reaches only the module hook |
| DatalinkProperties.UnknownIdOnlyHook | sw/airborne/firmwares/rotorcraft/datalink.c:222-226 | an id that no compiled-in case carries reaches only `default` and the module hook |
| DatalinkProperties.SettingEchoesValue | sw/airborne/firmwares/rotorcraft/datalink.c:76-83 | SETTING for this aircraft calls DlSetting(i, v), then echoes DL_VALUE(i, v) |
| DatalinkProperties.GetSettingReadsStore | sw/airborne/firmwares/rotorcraft/datalink.c:85-91 | GET_SETTING for this aircraft replies DL_VALUE with the index and the stored value |
| DatalinkProperties.SetThenGetReturnsValue | sw/airborne/firmwares/rotorcraft/datalink.c:76-91 | SETTING then GET_SETTING of the same index returns the value just set, if the store keeps values exactly |
| DatalinkProperties.BlockGoesToBlock | sw/airborne/firmwares/rotorcraft/datalink.c:93-97 | with USE_NAVIGATION, BLOCK for this aircraft calls nav_goto_block with the block id, then the hook |
| DatalinkProperties.MoveWpWithoutOriginIgnored | sw/airborne/firmwares/rotorcraft/datalink.c:100-116 | MOVE_WP moves no waypoint while the local coordinate origin is invalid |
| DatalinkProperties.MoveWpConvertsAltitude | sw/airborne/firmwares/rotorcraft/datalink.c:100-116 | with a valid origin, MOVE_WP for this aircraft moves the named waypoint; latitude and longitude are unchanged, the altitude is alt - hmsl + origin altitude, and converting it back to MSL gives the requested altitude |
| DatalinkProperties.EllipsoidAltRoundTrip | sw/airborne/firmwares/rotorcraft/datalink.c:108-112 | converting MSL to ellipsoid altitude and back is the identity |
| DatalinkProperties.EllipsoidAltExample | sw/airborne/firmwares/rotorcraft/datalink.c:111-112 | 10000 mm MSL at an origin (hmsl 5000, ellipsoid 5200) is 10200 mm above the ellipsoid |
| DatalinkProperties.Rc3ChIgnoresIdentity | sw/airborne/firmwares/rotorcraft/datalink.c:118-127 | RC_3CH is forwarded unchanged with no identity check |
| DatalinkProperties.Rc4ChNeedsIdentity | sw/airborne/firmwares/rotorcraft/datalink.c:128-139 | RC_4CH is forwarded if and only if its ac_id is AC_ID |
| DatalinkProperties.GpsInjectNeedsOnlyUseGps | sw/airborne/firmwares/rotorcraft/datalink.c:141-190 | GPS_INJECT is forwarded whenever USE_GPS is set, whatever GPS_DATALINK is |
| DatalinkProperties.RemoteGpsSmallForwarded | sw/airborne/firmwares/rotorcraft/datalink.c:142-153 | with USE_GPS and GPS_DATALINK, REMOTE_GPS_SMALL for this aircraft passes numsv, pos_xyz, speed_xyz and heading unchanged to the GPS parser, then the hook |
| DatalinkProperties.RemoteGpsForwarded | sw/airborne/firmwares/rotorcraft/datalink.c:155-175 | with USE_GPS and GPS_DATALINK, REMOTE_GPS for this aircraft passes its fix unchanged to the GPS parser, then the hook |
| DatalinkProperties.RemoteGpsNeedsGpsDatalink | sw/airborne/firmwares/rotorcraft/datalink.c:142-176 | without GPS_DATALINK, REMOTE_GPS and REMOTE_GPS_SMALL reach only the hook |
| DatalinkProperties.GuidedSetpointDispatch | sw/airborne/firmwares/rotorcraft/datalink.c:192-221 | GUIDED_SETPOINT_NED for this aircraft, in every configuration, calls the primitive the flags table gives, or none for any other flags value |
| DatalinkProperties.GuidedVelocityFlag | sw/airborne/firmwares/rotorcraft/datalink.c:213-216 | flags 0x70 call move_ned, not goto_ned |
| DatalinkProperties.ActsIffSubsystemCall | sw/airborne/firmwares/rotorcraft/datalink.c:65-227 | a subsystem call happens if and only if the case is compiled in, the message is addressed here (or has no target), a waypoint move has a valid origin, and the guided flags are known; otherwise only the hook runs |
| Downlink.Rate | sw/airborne/subsystems/datalink/downlink.c:64-65 | when 1000 x the counter delta fits in 32 bits and the quotient fits in 16 bits, the rate is the exact integer quotient of 1000 x delta by elapsed milliseconds |
| Downlink.Step | sw/airborne/subsystems/datalink/downlink.c:58-79 | a report is sent if and only if now > last_ts; with no report the state is unchanged; after a report last_ts = now, the counters are remembered with DATALINK or SITL and pinned to 0 otherwise, and the report carries AC_ID, uptime, messages in, messages out, down rate, up rate, overruns in that order |
| Downlink.DownlinkInit | sw/airborne/subsystems/datalink/downlink.c:82-91 | the device's overrun, byte and message counters become 0, and the received-message count becomes 0 only when DATALINK is defined |
| DownlinkProperties.StaleTickIgnored | sw/airborne/subsystems/datalink/downlink.c:63-78 | a tick with now <= last_ts (unsigned) sends nothing and changes nothing |
| DownlinkProperties.RepeatedTickSilent | sw/airborne/subsystems/datalink/downlink.c:63-67 | a second tick at the same millisecond is silent and keeps the state |
| DownlinkProperties.RateExample | sw/airborne/subsystems/datalink/downlink.c:64 | 500 bytes over 1000 ms give a down rate of 500 |
| DownlinkProperties.WrappedCounterRate | sw/airborne/subsystems/datalink/downlink.c:64-65 | a counter that wrapped past 2^32 still gives the rate of its true increment d, while 1000 x d fits in 32 bits |
| DownlinkProperties.ProductOverflowExample | sw/airborne/subsystems/datalink/downlink.c:64 | when 1000 x delta overflows 32 bits the product wraps: 4294968 bytes in 1000 ms give a rate of 0 |
| DownlinkProperties.TruncationExample | sw/airborne/subsystems/datalink/downlink.c:64 | a rate above 65535 keeps its low 16 bits: 70 bytes in 1 ms give 4464 |
| DownlinkProperties.ConsecutiveReportsMeasureInterval | sw/airborne/subsystems/datalink/downlink.c:67-70 | with DATALINK or SITL, the second of two reports measures the counters' change since the first |
| DownlinkProperties.UntrackedReportsMeasureTotals | sw/airborne/subsystems/datalink/downlink.c:71-74 | without DATALINK and SITL, every later report measures the whole counters against 0 |
| DownlinkProperties.FirstReportAfterInit | sw/airborne/subsystems/datalink/downlink.c:82-91 | right after downlink_init with DATALINK, the first report shows zero rates and zero counters |
| DownlinkProperties.Run | sw/airborne/subsystems/datalink/downlink.c:54-79 | over a run of ticks the remembered timestamp never goes back, and there are no more reports than ticks |
| DownlinkProperties.RunRemembersLatestTime | sw/airborne/subsystems/datalink/downlink.c:54-79 | over any run of ticks, last_ts ends as the latest of its start value and every tick time |
| DownlinkProperties.RunReportsNewHighs | sw/airborne/subsystems/datalink/downlink.c:54-79 | over any run of ticks, one report is sent for each tick later than every earlier time, and none for the others |

## Left out

- The generated field accessors and the byte layouts of the messages are not modelled. Messages arrive already decoded (`Msg`). Only the rule that the id is byte 1 is modelled.
- The numeric values of the `DL_*` ids are not modelled. They come from the message schema, so they are the parameter `IdTable`.
- The subsystems the router calls are foreign code: `DlSetting`, `settings_get_value`, `nav_goto_block`, `waypoint_move_lla`, the `autopilot_guided_*` primitives, the RC and GPS parsers, and `gps_inject_data`. Each appears only as an `Effect` record.
- Observers of `modules_parse_datalink` are not modelled. The hook is the single final `ModuleHook(msg_id)` effect.
- Float fields are opaque `F32` bit patterns with no arithmetic.
- The LED toggles under `RADIO_CONTROL_DATALINK_LED` are not modelled. They are hardware side effects.
- The `datalink_enabled` flag defined under `USE_NPS` is not modelled. The router does not read it.
- Datalink.ParseMsg: requires that the MOVE_WP altitude conversion does not overflow `int32_t`, both `alt - hmsl` and the final sum. Signed overflow is undefined behaviour in C, so the model says nothing about such messages.
- Datalink.EllipsoidAlt: requires the same absence of int32 overflow, for the same reason.
- DatalinkProperties.SetThenGetReturnsValue: assumes a settings store that keeps every written float exactly. The real `DlSetting` stores into each setting's own C type, which may round the value.
- Transport construction and initialisation are not modelled. This covers `pprz_transport_init`, `xbee_transport_init`, `w5100_init`, `bluegiga_init`, `pprzlog_transport_init` and `ivy_transport_init`. It is I/O plumbing.
- `register_periodic_telemetry` and the scheduler are not modelled. `Run` takes an explicit sequence of ticks instead.
- The clock `get_sys_time_msec` is not modelled. The time is the input `now`.
- The serialisation done by `pprz_msg_send_DATALINK_REPORT` and `DOWNLINK_SEND_*` is not modelled. It lives in another library. The report is the `Report` datatype.
- Reporter availability is not modelled: `send_downlink` exists only when `PERIODIC_TELEMETRY` is set, and the model assumes it is.
- The declared widths of `datalink_time`, `datalink_nb_msgs` and the link device counters are not modelled. They live in headers that are not part of this model. All are taken as `uint32_t`, the width the rate expression casts them to. `int` is assumed to be 32 bits, as on the flight targets.
