/**
 The telemetry rate reporter (`send_downlink`) and the counter reset of
 `downlink_init`.

 On every periodic tick the reporter compares the link counters with the
 values it saw at its previous report and sends DATALINK_REPORT with the
 downlink byte rate and the uplink message rate. All arithmetic is the C
 code's: unsigned 32-bit with wrap-around, the quotient stored into a
 `uint16_t`.
 */
module Downlink {
  import opened MachineInts
  import opened Optional

  /** The build flags the reporter depends on. */
  datatype ReporterConfig = ReporterConfig(
    acId: u8,       // AC_ID
    datalink: bool, // DATALINK is defined
    sitl: bool      // SITL is defined
  )
  {
    /** Whether the reporter remembers the counters it reported. */
    predicate TracksCounters() {
      datalink || sitl
    }
  }

  /** The counters of the link device the report is sent on. */
  datatype Device = Device(nbBytes: u32, nbMsgs: u32, nbOvrn: u32)

  /** The uplink side: `datalink_time` (uptime) and `datalink_nb_msgs`
      (messages received). */
  datatype Uplink = Uplink(time: u32, nbMsgs: u32)

  /** The reporter's own state: the counters and the timestamp (in
      milliseconds) of its previous report. */
  datatype Reporter = Reporter(lastDownNbBytes: u32, lastUpNbMsgs: u32, lastTs: u32)

  /** The state before the first tick. */
  const INITIAL: Reporter := Reporter(0, 0, 0)

  /** The DATALINK_REPORT message, its fields in the order they are sent. */
  datatype Report = Report(
    acId: u8, uptime: u32, upMsgs: u32, downMsgs: u32,
    downRate: u16, upRate: u16, overruns: u32)

  /** Events per second between two readings of a counter taken `dt`
      milliseconds apart, as the C expression computes it. */
  function Rate(current: u32, last: u32, dt: u32): (r: u16)
    requires dt > 0
    ensures
      var scaled := 1000 * Sub32(current, last);
      scaled < TWO_32 && scaled / dt < TWO_16 ==> r == scaled / dt
  {
    Trunc16(Wrap32(1000 * Sub32(current, last)) / dt)
  }

  /** One call of `send_downlink` at time `now`: the new reporter state and
      the report sent, if any. */
  function Step(cfg: ReporterConfig, st: Reporter, now: u32, dev: Device, up: Uplink)
    : (r: (Reporter, Option<Report>))
    ensures r.1.None? <==> now <= st.lastTs
    ensures r.1.None? ==> r.0 == st
    ensures r.1.Some? ==>
      && r.0.lastTs == now
      && r.1.value == Report(
           cfg.acId, up.time, up.nbMsgs, dev.nbMsgs,
           Rate(dev.nbBytes, st.lastDownNbBytes, now - st.lastTs),
           Rate(up.nbMsgs, st.lastUpNbMsgs, now - st.lastTs),
           dev.nbOvrn)
    ensures r.1.Some? && cfg.TracksCounters() ==>
      r.0.lastDownNbBytes == dev.nbBytes && r.0.lastUpNbMsgs == up.nbMsgs
    ensures r.1.Some? && !cfg.TracksCounters() ==>
      r.0.lastDownNbBytes == 0 && r.0.lastUpNbMsgs == 0
  {
    if now > st.lastTs then
      var dt := Sub32(now, st.lastTs);
      var downRate := Rate(dev.nbBytes, st.lastDownNbBytes, dt);
      var upRate := Rate(up.nbMsgs, st.lastUpNbMsgs, dt);
      var st' :=
        if cfg.TracksCounters() then Reporter(dev.nbBytes, up.nbMsgs, now)
        else Reporter(0, 0, now);
      (st', Some(Report(cfg.acId, up.time, up.nbMsgs, dev.nbMsgs, downRate, upRate, dev.nbOvrn)))
    else
      (st, None)
  }

  /** The counter reset of `downlink_init`: the device counters become zero,
      and so does the received-message count when DATALINK is defined. */
  function DownlinkInit(cfg: ReporterConfig, dev: Device, up: Uplink): (r: (Device, Uplink))
    ensures r.0.nbBytes == 0 && r.0.nbMsgs == 0 && r.0.nbOvrn == 0
    ensures r.1.time == up.time
    ensures r.1.nbMsgs == if cfg.datalink then 0 else up.nbMsgs
  {
    (Device(0, 0, 0), if cfg.datalink then up.(nbMsgs := 0) else up)
  }
}
