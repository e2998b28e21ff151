/**
 What the telemetry rate reporter promises: the guard on time, the rate
 arithmetic with its wrap-around and truncation, and what successive ticks
 of the periodic scheduler observe.
 */
module DownlinkProperties {
  import opened MachineInts
  import opened Optional
  import opened Downlink

  /** A tick whose time has not advanced past the previous report sends
      nothing and changes nothing. */
  lemma StaleTickIgnored(cfg: ReporterConfig, st: Reporter, now: u32, dev: Device, up: Uplink)
    requires now <= st.lastTs
    ensures Step(cfg, st, now, dev, up) == (st, None)
  {
  }

  /** Two ticks at the same millisecond: the second one is silent and leaves
      the state the first one produced. */
  lemma RepeatedTickSilent(cfg: ReporterConfig, st: Reporter, now: u32, dev: Device, up: Uplink, dev': Device, up': Uplink)
    ensures
      var st1 := Step(cfg, st, now, dev, up).0;
      Step(cfg, st1, now, dev', up') == (st1, None)
  {
  }

  /** The worked example: 500 bytes in the 1000 ms since the previous
      report give a downlink rate of 500 bytes per second. */
  lemma RateExample(cfg: ReporterConfig, nbMsgs: u32, nbOvrn: u32, up: Uplink)
    ensures
      var r := Step(cfg, Reporter(0, 0, 0), 1000, Device(500, nbMsgs, nbOvrn), up).1;
      r.Some? && r.value.downRate == 500
  {
  }

  /** A counter that wrapped past 2^32 since the previous report still
      yields the rate of the true increment `d`, as long as `1000 * d` fits
      in 32 bits: the modular subtraction undoes the wrap. */
  lemma WrappedCounterRate(last: u32, d: nat, dt: u32)
    requires dt > 0 && 1000 * d < TWO_32
    ensures Rate(Wrap32(last + d), last, dt) == Trunc16(1000 * d / dt)
  {
  }

  /** When `1000 * d` overflows 32 bits the product wraps: 4294968 bytes in
      one second are reported as a rate of 0. */
  lemma ProductOverflowExample()
    ensures Rate(4294968, 0, 1000) == 0
  {
  }

  /** A rate above 65535 is cut to its low 16 bits: 70 bytes in one
      millisecond (70000 per second) are reported as 4464. */
  lemma TruncationExample()
    ensures Rate(70, 0, 1) == 4464
  {
  }

  /** With DATALINK or SITL defined, a report measures what happened since
      the previous report. */
  lemma ConsecutiveReportsMeasureInterval(
    cfg: ReporterConfig, st: Reporter, t1: u32, t2: u32,
    dev1: Device, up1: Uplink, dev2: Device, up2: Uplink)
    requires cfg.TracksCounters()
    requires st.lastTs < t1 < t2
    ensures
      var st1 := Step(cfg, st, t1, dev1, up1).0;
      var r := Step(cfg, st1, t2, dev2, up2).1;
      && r.Some?
      && r.value.downRate == Rate(dev2.nbBytes, dev1.nbBytes, t2 - t1)
      && r.value.upRate == Rate(up2.nbMsgs, up1.nbMsgs, t2 - t1)
  {
  }

  /** Without DATALINK and SITL, every report after the first measures the
      whole counters, as if they had been zero at the previous report. */
  lemma UntrackedReportsMeasureTotals(
    cfg: ReporterConfig, st: Reporter, t1: u32, t2: u32,
    dev1: Device, up1: Uplink, dev2: Device, up2: Uplink)
    requires !cfg.TracksCounters()
    requires st.lastTs < t1 < t2
    ensures
      var st1 := Step(cfg, st, t1, dev1, up1).0;
      var r := Step(cfg, st1, t2, dev2, up2).1;
      && r.Some?
      && r.value.downRate == Rate(dev2.nbBytes, 0, t2 - t1)
      && r.value.upRate == Rate(up2.nbMsgs, 0, t2 - t1)
  {
  }

  /** The first report after `downlink_init` (with DATALINK defined) and
      before any traffic shows zero rates and zero counters. */
  lemma FirstReportAfterInit(cfg: ReporterConfig, dev: Device, up: Uplink, now: u32)
    requires cfg.datalink && now > 0
    ensures
      var (dev0, up0) := DownlinkInit(cfg, dev, up);
      var r := Step(cfg, INITIAL, now, dev0, up0).1;
      && r.Some?
      && r.value.downRate == 0 && r.value.upRate == 0
      && r.value.upMsgs == 0 && r.value.downMsgs == 0 && r.value.overruns == 0
  {
  }

  /** One invocation by the periodic scheduler. */
  datatype Tick = Tick(now: u32, dev: Device, up: Uplink)

  /** The reports one tick sends: none or one. */
  function Sent(out: Option<Report>): seq<Report> {
    if out.Some? then [out.value] else []
  }

  /** The reporter driven by a sequence of ticks: the final state and the
      reports sent, in order. */
  function Run(cfg: ReporterConfig, st: Reporter, ticks: seq<Tick>): (r: (Reporter, seq<Report>))
    ensures r.0.lastTs >= st.lastTs
    ensures |r.1| <= |ticks|
    decreases |ticks|
  {
    if ticks == [] then (st, [])
    else
      var (st1, out) := Step(cfg, st, ticks[0].now, ticks[0].dev, ticks[0].up);
      var (stN, reports) := Run(cfg, st1, ticks[1..]);
      (stN, Sent(out) + reports)
  }

  /** The later of two times. */
  function Later(a: u32, b: u32): u32 {
    if b > a then b else a
  }

  /** The latest of `ts` and every tick time. */
  function Latest(ts: u32, ticks: seq<Tick>): u32
    decreases |ticks|
  {
    if ticks == [] then ts
    else Latest(Later(ts, ticks[0].now), ticks[1..])
  }

  /** The number of ticks that are later than `ts` and every tick before
      them. */
  function NewHighs(ts: u32, ticks: seq<Tick>): nat
    decreases |ticks|
  {
    if ticks == [] then 0
    else (if ticks[0].now > ts then 1 else 0) + NewHighs(Later(ts, ticks[0].now), ticks[1..])
  }

  /** Over any run, the remembered timestamp is the latest time seen. */
  lemma {:induction false} RunRemembersLatestTime(cfg: ReporterConfig, st: Reporter, ticks: seq<Tick>)
    ensures Run(cfg, st, ticks).0.lastTs == Latest(st.lastTs, ticks)
    decreases |ticks|
  {
    if ticks != [] {
      var st1 := Step(cfg, st, ticks[0].now, ticks[0].dev, ticks[0].up).0;
      RunRemembersLatestTime(cfg, st1, ticks[1..]);
    }
  }

  /** Over any run, a report goes out exactly for the ticks that set a new
      latest time. */
  lemma {:induction false} RunReportsNewHighs(cfg: ReporterConfig, st: Reporter, ticks: seq<Tick>)
    ensures |Run(cfg, st, ticks).1| == NewHighs(st.lastTs, ticks)
    decreases |ticks|
  {
    if ticks != [] {
      var st1 := Step(cfg, st, ticks[0].now, ticks[0].dev, ticks[0].up).0;
      RunReportsNewHighs(cfg, st1, ticks[1..]);
    }
  }
}
