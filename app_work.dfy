/**
 * app_work.c: the main loop's work of the older firmware revision. The
 * sensors are driven directly, without any guard, every failure ends the
 * current step, and the pending settings of app_settings.c are written to
 * the sensors before and after each read cycle.
 */
module AppWork {
  import opened Stdint
  import opened Wrappers
  import opened SensorBus
  import opened Transcripts
  import opened Golioth
  import opened Polling
  import opened AppSettings

  /** A measurement was reached and returned 0. */
  predicate Succeeds(o: Option<Phases>)
  {
    o.Some? && o.value.Status() == 0
  }

  /** The write that carries setting `p`'s value `v` to its sensor. */
  function WriteOf(v: Values, p: Param): Cmd
    requires p != LoopDelay
  {
    match p
    case TemperatureOffset => Scd4xSetTemperatureOffset(v.temperatureOffset)
    case Altitude => Scd4xSetSensorAltitude(v.altitude)
    case Asc => Scd4xSetAutomaticSelfCalibration(v.asc)
    case CleaningInterval => Sps30SetFanAutoCleaningInterval(v.cleaningInterval)
  }

  /** The hardware settings, in the order the drain visits them. */
  const HardwareParams: seq<Param> := [TemperatureOffset, Altitude, Asc, CleaningInterval]

  /** The write a drain of `s` issues for setting `p`: its stored value if its flag is raised, else none. */
  function PendingWrite(s: Store, p: Param): seq<Cmd>
    requires p != LoopDelay
  {
    if Flag(s.pending, p) then [WriteOf(s.values, p)] else []
  }

  /** The writes a drain of `s` issues, in order. */
  function PendingWrites(s: Store): seq<Cmd>
  {
    PendingWrite(s, TemperatureOffset) + PendingWrite(s, Altitude) + PendingWrite(s, Asc)
    + PendingWrite(s, CleaningInterval)
  }

  /** The bus traffic of one `update_sensor_settings`, one block per hardware setting. */
  datatype Drain = Drain(
    offset: seq<Transaction>, altitude: seq<Transaction>, asc: seq<Transaction>, interval: seq<Transaction>)
  {
    function All(): seq<Transaction>
    {
      offset + altitude + asc + interval
    }

    function Block(p: Param): seq<Transaction>
      requires p != LoopDelay
    {
      match p
      case TemperatureOffset => offset
      case Altitude => altitude
      case Asc => asc
      case CleaningInterval => interval
    }
  }

  /** Setting `p`'s block of a drain of `s`: one unguarded write of the stored value if its flag is raised, else nothing. */
  predicate BlockOf(s: Store, p: Param, b: seq<Transaction>)
    requires p != LoopDelay
  {
    if Flag(s.pending, p) then |b| == 1 && b[0].cmd == WriteOf(s.values, p) && b[0].lockDepth == 0 else b == []
  }

  predicate DrainOf(s: Store, d: Drain)
  {
    && BlockOf(s, TemperatureOffset, d.offset)
    && BlockOf(s, Altitude, d.altitude)
    && BlockOf(s, Asc, d.asc)
    && BlockOf(s, CleaningInterval, d.interval)
  }

  /** Setting `p`'s flag after its block `b`: cleared when the write returned 0, else as it was. */
  function Settle(f: Pending, p: Param, b: seq<Transaction>): Pending
    requires p != LoopDelay
  {
    if !Ok(b) then f
    else match p
      case TemperatureOffset => f.(temperatureOffset := false)
      case Altitude => f.(altitude := false)
      case Asc => f.(asc := false)
      case CleaningInterval => f.(cleaningInterval := false)
  }

  /** The flags a drain of `s` leaves raised. */
  function Remaining(s: Store, d: Drain): Pending
  {
    var f1 := Settle(s.pending, TemperatureOffset, d.offset);
    var f2 := Settle(f1, Altitude, d.altitude);
    var f3 := Settle(f2, Asc, d.asc);
    Settle(f3, CleaningInterval, d.interval)
  }

  /** Settling one setting's flag leaves what the drain expects of every other setting's block as it was. */
  lemma SettleKeepsOtherBlocks(s: Store, p: Param, b: seq<Transaction>, q: Param, c: seq<Transaction>)
    requires p != LoopDelay && q != LoopDelay && p != q
    ensures BlockOf(Store(s.values, Settle(s.pending, p, b)), q, c) == BlockOf(s, q, c)
  {
  }

  /** Four blocks run one after the other, each on the store the one before left, make a drain of the first store. */
  lemma DrainSteps(s: Store, o: seq<Transaction>, s1: Store, a: seq<Transaction>, s2: Store,
                   c: seq<Transaction>, s3: Store, i: seq<Transaction>, s4: Store)
    requires BlockOf(s, TemperatureOffset, o) && s1 == Store(s.values, Settle(s.pending, TemperatureOffset, o))
    requires BlockOf(s1, Altitude, a) && s2 == Store(s1.values, Settle(s1.pending, Altitude, a))
    requires BlockOf(s2, Asc, c) && s3 == Store(s2.values, Settle(s2.pending, Asc, c))
    requires BlockOf(s3, CleaningInterval, i) && s4 == Store(s3.values, Settle(s3.pending, CleaningInterval, i))
    ensures DrainOf(s, Drain(o, a, c, i)) && s4 == AfterDrain(s, Drain(o, a, c, i))
  {
    SettleKeepsOtherBlocks(s, TemperatureOffset, o, Altitude, a);
    SettleKeepsOtherBlocks(s, TemperatureOffset, o, Asc, c);
    SettleKeepsOtherBlocks(s1, Altitude, a, Asc, c);
    SettleKeepsOtherBlocks(s, TemperatureOffset, o, CleaningInterval, i);
    SettleKeepsOtherBlocks(s1, Altitude, a, CleaningInterval, i);
    SettleKeepsOtherBlocks(s2, Asc, c, CleaningInterval, i);
  }

  /** The store after a drain of `s`: the values as they were, the flags as `Remaining` says. */
  function AfterDrain(s: Store, d: Drain): Store
  {
    Store(s.values, Remaining(s, d))
  }

  /** `service_rpc_requests`: a pending request runs one fan cleaning, otherwise nothing is issued. */
  predicate ServiceOf(requested: bool, t: seq<Transaction>)
  {
    if requested then StoppedAtFirstFailure(t, CleanFanCmds) && AtDepth(t, 0) else t == []
  }

  /** A drain issues exactly the pending writes, in order. */
  lemma DrainWritesPending(s: Store, d: Drain)
    requires DrainOf(s, d)
    ensures Commands(d.All()) == PendingWrites(s)
  {
    var o, a, c, i := d.offset, d.altitude, d.asc, d.interval;
    CommandsConcat(o + a + c, i);
    CommandsConcat(o + a, c);
    CommandsConcat(o, a);
    BlockCommands(s, TemperatureOffset, o);
    BlockCommands(s, Altitude, a);
    BlockCommands(s, Asc, c);
    BlockCommands(s, CleaningInterval, i);
  }

  /** None of a drain's writes is issued under a lock. */
  lemma DrainUnlocked(s: Store, d: Drain)
    requires DrainOf(s, d)
    ensures AtDepth(d.All(), 0)
  {
    var o, a, c, i := d.offset, d.altitude, d.asc, d.interval;
    AtDepthConcat(o + a + c, i, 0);
    AtDepthConcat(o + a, c, 0);
    AtDepthConcat(o, a, 0);
    BlockCommands(s, TemperatureOffset, o);
    BlockCommands(s, Altitude, a);
    BlockCommands(s, Asc, c);
    BlockCommands(s, CleaningInterval, i);
  }

  lemma BlockCommands(s: Store, p: Param, b: seq<Transaction>)
    requires p != LoopDelay && BlockOf(s, p, b)
    ensures Commands(b) == PendingWrite(s, p)
    ensures AtDepth(b, 0)
  {
  }

  /** Only setting `p`'s own block can acknowledge the write of `p`, and it does exactly when its write returned 0. */
  lemma BlockSucceeded(s: Store, d: Drain, p: Param, q: Param)
    requires DrainOf(s, d) && p != LoopDelay && q != LoopDelay
    ensures Succeeded(d.Block(q), WriteOf(s.values, p)) <==> q == p && Ok(d.Block(q))
  {
    var cmd := WriteOf(s.values, p);
    if Succeeded(d.Block(q), cmd) {
      var i :| 0 <= i < |d.Block(q)| && d.Block(q)[i].cmd == cmd && d.Block(q)[i].status == 0;
    }
    if q == p && Ok(d.Block(q)) {
      assert d.Block(q)[0].cmd == cmd;
    }
  }

  /**
   * A drain lowers a flag exactly when the write of that setting succeeded:
   * a setting stays pending after the drain iff it was pending and the bus
   * shows no successful write of its value.
   */
  lemma DrainLowersExactlySucceeded(s: Store, d: Drain, p: Param)
    requires DrainOf(s, d) && p != LoopDelay
    ensures Flag(AfterDrain(s, d).pending, p) <==> Flag(s.pending, p) && !Succeeded(d.All(), WriteOf(s.values, p))
    ensures Get(AfterDrain(s, d).values, p) == Get(s.values, p)
  {
    var cmd := WriteOf(s.values, p);
    SucceededConcat(d.offset + d.altitude + d.asc, d.interval, cmd);
    SucceededConcat(d.offset + d.altitude, d.asc, cmd);
    SucceededConcat(d.offset, d.altitude, cmd);
    BlockSucceeded(s, d, p, TemperatureOffset);
    BlockSucceeded(s, d, p, Altitude);
    BlockSucceeded(s, d, p, Asc);
    BlockSucceeded(s, d, p, CleaningInterval);
    assert d.Block(TemperatureOffset) == d.offset;
    assert d.Block(Altitude) == d.altitude;
    assert d.Block(Asc) == d.asc;
    assert d.Block(CleaningInterval) == d.interval;
  }

  /**
   * A failed write is retried: the next drain writes the same setting
   * again, with the value then stored.
   */
  lemma FailedWriteIsRetried(s: Store, d: Drain, p: Param, next: Drain)
    requires DrainOf(s, d) && p != LoopDelay
    requires Flag(s.pending, p) && !Ok(d.Block(p))
    requires DrainOf(AfterDrain(s, d), next)
    ensures |next.Block(p)| == 1 && next.Block(p)[0].cmd == WriteOf(s.values, p)
  {
    DrainLowersExactlySucceeded(s, d, p);
  }

  /**
   * Coalescing end to end: after a drain, a burst of accepted values for a
   * hardware setting that leaves it different from what the drain
   * wrote, or that arrives while the setting is still pending, makes the
   * next drain write it exactly once, with the last value of the burst.
   */
  lemma NextDrainWritesLatest(s: Store, p: Param, vs: seq<SettingValue>, next: Drain)
    requires p != LoopDelay && vs != []
    requires forall k :: 0 <= k < |vs| ==> Check(p, vs[k]).Accepted?
    requires Flag(s.pending, p) || Get(s.values, p) != Check(p, vs[|vs| - 1]).x
    requires DrainOf(Apply(s, KeyOf(p), vs), next)
    ensures |next.Block(p)| == 1
    ensures Get(Apply(s, KeyOf(p), vs).values, p) == Check(p, vs[|vs| - 1]).x
    ensures next.Block(p)[0].cmd == WriteOf(Apply(s, KeyOf(p), vs).values, p)
  {
    BurstKeepsLatest(s, p, vs);
  }

  /** The transactions of a drain that may not have been reached. */
  function DrainTraffic(o: Option<Drain>): seq<Transaction>
  {
    if o.Some? then o.value.All() else []
  }

  /**
   * The bus traffic of one `app_work_sensor_read`, phase by phase, and
   * whether the fan-cleaning request was raised (by the RPC handler, on
   * another thread) when the cycle reached its second service.
   */
  datatype Cycle = Cycle(
    drain1: Drain, service1: seq<Transaction>,
    weather: seq<Transaction>, co2: Option<Phases>, pm: Option<Phases>,
    request2: bool, drain2: Option<Drain>, service2: seq<Transaction>)
  {
    function All(): seq<Transaction>
    {
      drain1.All() + service1 + weather + Flat(co2) + Flat(pm) + DrainTraffic(drain2) + service2
    }

    /** All three sensors were read without error. */
    predicate ReadsOk()
    {
      Ok(weather) && Succeeds(co2) && Succeeds(pm)
    }
  }

  /**
   * The file's globals: the cloud client, the bus of the three sensors,
   * the settings module whose `update_*` flags it clears, and the RPC
   * module's `request_sps30_manual_fan_cleaning`.
   */
  class Work {
    const client: Client<Report>
    const bus: Bus
    const settings: SettingsStore
    var requestSps30ManualFanCleaning: bool

    /** `client = work_client` of `app_work_init`, with the other modules' state passed in. */
    constructor (client: Client<Report>, bus: Bus, settings: SettingsStore, request: bool)
      ensures this.client == client && this.bus == bus && this.settings == settings
      ensures requestSps30ManualFanCleaning == request
    {
      this.client := client;
      this.bus := bus;
      this.settings := settings;
      requestSps30ManualFanCleaning := request;
    }

    /** `bme280_read`: one sample fetch; the channels are written only when it succeeded. */
    method Bme280Read(prev: Weather) returns (err: int, w: Weather, ghost t: seq<Transaction>)
      modifies bus
      ensures bus.log == old(bus.log) + t
      ensures |t| == 1 && t[0].cmd == Bme280SampleFetch && t[0].reply.WeatherSample? && AtDepth(t, 0)
      ensures err == t[0].status
      ensures w == if err == 0 then WeatherOf(t[0].reply) else prev
      ensures bus.scd4xPollsUntilReady == old(bus.scd4xPollsUntilReady)
      ensures bus.sps30PollsUntilReady == old(bus.sps30PollsUntilReady)
    {
      var temperature, pressure, humidity;
      err, temperature, pressure, humidity := bus.Bme280Fetch(0);
      t := [Transaction(Bme280SampleFetch, err, WeatherSample(temperature, pressure, humidity), 0)];
      if err != 0 {
        return err, prev, t;
      }
      w := Weather(temperature, pressure, humidity);
    }

    /**
     * `scd4x_read`: a single-shot measurement, a data-ready wait with no
     * bound, then the read. A zero CO2 sample returns the read's status 0
     * without writing the output.
     */
    method Scd4xRead(prev: Co2Reading) returns (err: int, m: Co2Reading, ghost p: Phases)
      modifies bus
      ensures bus.log == old(bus.log) + p.All()
      ensures p.Unbounded(Scd4xMeasureSingleShot, Scd4xGetDataReadyFlag, Scd4xReadMeasurement, [])
      ensures p.AllAtDepth(0)
      ensures err == p.Status()
      ensures m == if Co2Written(p) then Co2ReadingOf(p.rest[0].reply) else prev
      ensures bus.sps30PollsUntilReady == old(bus.sps30PollsUntilReady)
    {
      var s := bus.Command(Scd4xMeasureSingleShot, 0);
      p := Phases(Transaction(Scd4xMeasureSingleShot, s, NoData, 0), [], []);
      if s != 0 {
        return s, prev, p;
      }
      ghost var wait;
      s, wait := AwaitReady(bus, 0, Scd4xGetDataReadyFlag);
      p := p.(wait := wait);
      if s != 0 {
        return s, prev, p;
      }
      var co2, temperature, humidity;
      s, co2, temperature, humidity := bus.Scd4xMeasurement(0);
      p := p.(rest := [Transaction(Scd4xReadMeasurement, s, Co2Sample(co2, temperature, humidity), 0)]);
      if s != 0 {
        return s, prev, p;
      } else if co2 == 0 {
        return s, prev, p;
      }
      m := Co2Reading(co2, FromMilli(temperature), FromMilli(humidity));
      err := s;
    }

    /** `scd4x_init`: the four set-up calls, stopping at the first failure, then the throw-away read. */
    method Scd4xInit() returns (err: int, ghost steps: seq<Transaction>, ghost throwaway: Option<Phases>)
      modifies bus
      ensures bus.log == old(bus.log) + steps + Flat(throwaway)
      ensures Scd4xInitShape(steps, throwaway, 0)
      ensures err == if throwaway.Some? then throwaway.value.Status() else Last(steps).status
      ensures bus.sps30PollsUntilReady == old(bus.sps30PollsUntilReady)
    {
      err, steps := Scd4xPrepare();
      if err != 0 {
        throwaway := None;
        return;
      }
      ghost var log := bus.log;
      var measurement: Co2Reading := *;
      ghost var p;
      err, measurement, p := Scd4xRead(measurement);
      throwaway := Some(p);
      assert bus.log == log + Flat(throwaway);
    }

    /** The set-up calls of `scd4x_init`: wake up, stop periodic measurement, reinitialise, serial number. */
    method Scd4xPrepare() returns (err: int, ghost steps: seq<Transaction>)
      modifies bus
      ensures bus.log == old(bus.log) + steps
      ensures StoppedAtFirstFailure(steps, Scd4xInitCmds) && AtDepth(steps, 0)
      ensures err == Last(steps).status
      ensures bus.sps30PollsUntilReady == old(bus.sps30PollsUntilReady)
    {
      err := bus.Command(Scd4xWakeUp, 0);
      ghost var wake := Transaction(Scd4xWakeUp, err, NoData, 0);
      if err != 0 {
        return err, [wake];
      }
      err := bus.Command(Scd4xStopPeriodicMeasurement, 0);
      ghost var stop := Transaction(Scd4xStopPeriodicMeasurement, err, NoData, 0);
      if err != 0 {
        return err, [wake, stop];
      }
      err := bus.Command(Scd4xReinit, 0);
      ghost var reinit := Transaction(Scd4xReinit, err, NoData, 0);
      if err != 0 {
        return err, [wake, stop, reinit];
      }
      err := bus.Command(Scd4xGetSerialNumber, 0);
      steps := [wake, stop, reinit, Transaction(Scd4xGetSerialNumber, err, NoData, 0)];
    }

    /**
     * `sps30_read`: start measurement, a data-ready wait with no bound, the
     * read, then stop measurement. The output is written as soon as the read
     * succeeds, even when stopping then fails.
     */
    method Sps30Read(prev: Pm) returns (err: int, pm: Pm, ghost p: Phases)
      modifies bus
      ensures bus.log == old(bus.log) + p.All()
      ensures p.Unbounded(Sps30StartMeasurement, Sps30ReadDataReady, Sps30ReadMeasurement, [Sps30StopMeasurement])
      ensures p.AllAtDepth(0)
      ensures err == p.Status()
      ensures pm == if PmSampleOf(p).Some? then PmSampleOf(p).value else prev
      ensures bus.scd4xPollsUntilReady == old(bus.scd4xPollsUntilReady)
    {
      var s := bus.Command(Sps30StartMeasurement, 0);
      ghost var start := Transaction(Sps30StartMeasurement, s, NoData, 0);
      if s != 0 {
        return s, prev, Phases(start, [], []);
      }
      ghost var wait;
      s, wait := AwaitReady(bus, 0, Sps30ReadDataReady);
      if s != 0 {
        return s, prev, Phases(start, wait, []);
      }
      ghost var rest;
      err, pm, rest := ReadPmAndStop(bus, 0, prev);
      p := Phases(start, wait, rest);
    }

    /** `sps30_clean_fan`: start measurement, manual cleaning, stop, up to the first failure. */
    method Sps30CleanFan() returns (err: int, ghost t: seq<Transaction>)
      modifies bus
      ensures bus.log == old(bus.log) + t
      ensures StoppedAtFirstFailure(t, CleanFanCmds) && AtDepth(t, 0)
      ensures err == Last(t).status
      ensures bus.scd4xPollsUntilReady == old(bus.scd4xPollsUntilReady)
    {
      err := bus.Command(Sps30StartMeasurement, 0);
      t := [Transaction(Sps30StartMeasurement, err, NoData, 0)];
      if err != 0 {
        return;
      }
      err := bus.Command(Sps30StartManualFanCleaning, 0);
      t := t + [Transaction(Sps30StartManualFanCleaning, err, NoData, 0)];
      if err != 0 {
        return;
      }
      err := bus.Command(Sps30StopMeasurement, 0);
      t := t + [Transaction(Sps30StopMeasurement, err, NoData, 0)];
    }

    /** `sps30_init`: reset, probe once, firmware version, serial number, up to the first failure. */
    method Sps30Init() returns (err: int, ghost t: seq<Transaction>)
      modifies bus
      ensures bus.log == old(bus.log) + t
      ensures StoppedAtFirstFailure(t, Sps30InitCmds) && AtDepth(t, 0)
      ensures err == Last(t).status
    {
      err := bus.Command(Sps30Reset, 0);
      t := [Transaction(Sps30Reset, err, NoData, 0)];
      if err != 0 {
        return;
      }
      err := bus.Command(Sps30Probe, 0);
      t := t + [Transaction(Sps30Probe, err, NoData, 0)];
      if err != 0 {
        return;
      }
      err := bus.Command(Sps30ReadFirmwareVersion, 0);
      t := t + [Transaction(Sps30ReadFirmwareVersion, err, NoData, 0)];
      if err != 0 {
        return;
      }
      err := bus.Command(Sps30GetSerial, 0);
      t := t + [Transaction(Sps30GetSerial, err, NoData, 0)];
    }

    /**
     * `update_sensor_settings`: for each raised flag, write the value stored
     * now and lower the flag only if the write returned 0; a failed write
     * does not stop the later ones.
     */
    method UpdateSensorSettings() returns (ghost d: Drain)
      modifies settings, bus
      ensures bus.log == old(bus.log) + d.All()
      ensures DrainOf(old(settings.Snapshot()), d)
      ensures settings.Snapshot() == AfterDrain(old(settings.Snapshot()), d)
      ensures settings.wakeRequests == old(settings.wakeRequests)
      ensures bus.scd4xPollsUntilReady == old(bus.scd4xPollsUntilReady)
      ensures bus.sps30PollsUntilReady == old(bus.sps30PollsUntilReady)
    {
      ghost var s := settings.Snapshot();
      ghost var offset := WritePending(TemperatureOffset);
      ghost var s1 := settings.Snapshot();
      ghost var altitude := WritePending(Altitude);
      ghost var s2 := settings.Snapshot();
      ghost var asc := WritePending(Asc);
      ghost var s3 := settings.Snapshot();
      ghost var interval := WritePending(CleaningInterval);
      DrainSteps(s, offset, s1, altitude, s2, asc, s3, interval, settings.Snapshot());
      assert bus.log == old(bus.log) + (offset + altitude + asc + interval);
      d := Drain(offset, altitude, asc, interval);
    }

    /**
     * One block of `update_sensor_settings`: if setting `p`'s flag is raised, write its stored value
     * to the sensor without taking any lock, and clear the flag only when the write returned 0.
     */
    method WritePending(p: Param) returns (ghost b: seq<Transaction>)
      requires p != LoopDelay
      modifies settings, bus
      ensures bus.log == old(bus.log) + b
      ensures BlockOf(old(settings.Snapshot()), p, b)
      ensures settings.Snapshot() == Store(old(settings.Snapshot()).values, Settle(old(settings.Snapshot()).pending, p, b))
      ensures settings.wakeRequests == old(settings.wakeRequests)
      ensures bus.scd4xPollsUntilReady == old(bus.scd4xPollsUntilReady)
      ensures bus.sps30PollsUntilReady == old(bus.sps30PollsUntilReady)
    {
      b := [];
      var cmd;
      match p {
        case TemperatureOffset =>
          if !settings.updateTemperatureOffset { return; }
          cmd := Scd4xSetTemperatureOffset(settings.GetTemperatureOffset());
        case Altitude =>
          if !settings.updateAltitude { return; }
          cmd := Scd4xSetSensorAltitude(settings.GetAltitude());
        case Asc =>
          if !settings.updateAsc { return; }
          cmd := Scd4xSetAutomaticSelfCalibration(settings.GetAsc());
        case CleaningInterval =>
          if !settings.updateCleaningInterval { return; }
          cmd := Sps30SetFanAutoCleaningInterval(settings.GetCleaningInterval());
      }
      var err := bus.Command(cmd, 0);
      b := [Transaction(cmd, err, NoData, 0)];
      if err == 0 {
        match p {
          case TemperatureOffset => settings.updateTemperatureOffset := false;
          case Altitude => settings.updateAltitude := false;
          case Asc => settings.updateAsc := false;
          case CleaningInterval => settings.updateCleaningInterval := false;
        }
      }
    }

    /** `service_rpc_requests`: a pending fan-cleaning request is served once and cleared whatever its outcome. */
    method ServiceRpcRequests() returns (ghost t: seq<Transaction>)
      modifies this, bus
      ensures bus.log == old(bus.log) + t
      ensures ServiceOf(old(requestSps30ManualFanCleaning), t)
      ensures !requestSps30ManualFanCleaning
      ensures bus.scd4xPollsUntilReady == old(bus.scd4xPollsUntilReady)
    {
      t := [];
      if requestSps30ManualFanCleaning {
        var _, clean := Sps30CleanFan();
        t := clean;
        requestSps30ManualFanCleaning := false;
      }
    }

    /**
     * `app_work_sensor_read`: drain and serve requests, read and publish,
     * returning as soon as a read fails; otherwise drain and serve requests
     * again.
     */
    method SensorRead() returns (ghost c: Cycle)
      modifies this, settings, bus, client
      ensures bus.log == old(bus.log) + c.drain1.All() + c.service1 + c.weather + Flat(c.co2) + Flat(c.pm)
                         + DrainTraffic(c.drain2) + c.service2
      ensures DrainOf(old(settings.Snapshot()), c.drain1)
      ensures ServiceOf(old(requestSps30ManualFanCleaning), c.service1)
      ensures Measured(c.weather, c.co2, c.pm)
      ensures !c.ReadsOk() ==> client.calls == old(client.calls)
      ensures c.ReadsOk() ==> PublishedOnce(old(client.calls), client.calls, c.weather, c.co2, c.pm)
      ensures c.drain2.Some? <==> c.ReadsOk()
      ensures c.drain2.None? ==> settings.Snapshot() == AfterDrain(old(settings.Snapshot()), c.drain1)
      ensures c.drain2.Some? ==> DrainOf(AfterDrain(old(settings.Snapshot()), c.drain1), c.drain2.value)
      ensures c.drain2.Some? ==>
        settings.Snapshot() == AfterDrain(AfterDrain(old(settings.Snapshot()), c.drain1), c.drain2.value)
      ensures c.drain2.Some? ==> ServiceOf(c.request2, c.service2) && !requestSps30ManualFanCleaning
      ensures c.drain2.None? ==> c.service2 == [] && requestSps30ManualFanCleaning == c.request2
      ensures settings.wakeRequests == old(settings.wakeRequests)
    {
      ghost var drain1, service1 := Upkeep();
      ghost var settled := settings.Snapshot();
      var err;
      ghost var weather, co2, pm;
      err, weather, co2, pm := ReadAndPublish();
      // The RPC handler may raise the request while the sensors are read.
      requestSps30ManualFanCleaning := *;
      ghost var request2 := requestSps30ManualFanCleaning;
      ghost var drain2: Option<Drain>, service2 := None, [];
      assert settings.Snapshot() == settled;
      if err == 0 {
        ghost var d;
        d, service2 := Upkeep();
        drain2 := Some(d);
      }
      c := Cycle(drain1, service1, weather, co2, pm, request2, drain2, service2);
    }

    /** The two calls `app_work_sensor_read` makes at its start and again at its end: drain the settings, serve requests. */
    method Upkeep() returns (ghost d: Drain, ghost t: seq<Transaction>)
      modifies this, settings, bus
      ensures bus.log == old(bus.log) + d.All() + t
      ensures DrainOf(old(settings.Snapshot()), d)
      ensures settings.Snapshot() == AfterDrain(old(settings.Snapshot()), d)
      ensures ServiceOf(old(requestSps30ManualFanCleaning), t)
      ensures !requestSps30ManualFanCleaning
      ensures settings.wakeRequests == old(settings.wakeRequests)
    {
      d := UpdateSensorSettings();
      t := ServiceRpcRequests();
    }

    /**
     * The middle of `app_work_sensor_read`: read the BME280, the SCD4x and
     * the SPS30 in turn, stopping at the first failed read; if all three
     * succeeded, push one "sensor" record to the stream, whatever the push
     * returns. A non-zero `err` makes the caller return.
     */
    method ReadAndPublish() returns (err: int, ghost weather: seq<Transaction>, ghost co2: Option<Phases>, ghost pm: Option<Phases>)
      modifies bus, client
      ensures bus.log == old(bus.log) + weather + Flat(co2) + Flat(pm)
      ensures Measured(weather, co2, pm)
      ensures err == 0 <==> Ok(weather) && Succeeds(co2) && Succeeds(pm)
      ensures err != 0 ==> client.calls == old(client.calls)
      ensures err == 0 ==> PublishedOnce(old(client.calls), client.calls, weather, co2, pm)
    {
      var bme: Weather := *;
      var scd: Co2Reading := *;
      var sps: Pm := *;
      co2, pm := None, None;
      err, bme, weather := Bme280Read(bme);
      if err != 0 {
        return;
      }
      ghost var p;
      err, scd, p := Scd4xRead(scd);
      co2 := Some(p);
      if err != 0 {
        return;
      }
      err, sps, p := Sps30Read(sps);
      pm := Some(p);
      if err != 0 {
        return;
      }
      var report := Report(bme, scd.co2, sps);
      var _ := client.Send(StreamPush("sensor", report));
    }

    /**
     * `app_work_init`: stop if the BME280 is missing or not ready, else
     * bring up the SCD4x and, only if that succeeded, the SPS30.
     */
    method Init() returns (ghost scd: seq<Transaction>, ghost throwaway: Option<Phases>, ghost sps: seq<Transaction>)
      modifies bus
      ensures bus.log == old(bus.log) + scd + Flat(throwaway) + sps
      ensures !(bus.bme280Found && bus.bme280Ready) ==> scd == [] && throwaway == None && sps == []
      ensures bus.bme280Found && bus.bme280Ready ==> Scd4xInitShape(scd, throwaway, 0)
      ensures sps != [] <==> bus.bme280Found && bus.bme280Ready && Succeeds(throwaway)
      ensures sps != [] ==> StoppedAtFirstFailure(sps, Sps30InitCmds) && AtDepth(sps, 0)
    {
      scd, throwaway, sps := [], None, [];
      if !bus.bme280Found {
        return;
      }
      if !bus.bme280Ready {
        return;
      }
      var err;
      err, scd, throwaway := Scd4xInit();
      if err != 0 {
        return;
      }
      err, sps := Sps30Init();
    }
  }

  /**
   * What the three reads of one cycle did: one BME280 fetch; an SCD4x
   * measurement exactly when the fetch returned 0; an SPS30 measurement
   * exactly when the SCD4x one also returned 0.
   */
  predicate Measured(weather: seq<Transaction>, co2: Option<Phases>, pm: Option<Phases>)
  {
    && |weather| == 1 && weather[0].cmd == Bme280SampleFetch && weather[0].reply.WeatherSample?
    && (co2.Some? <==> Ok(weather))
    && (co2.Some? ==> co2.value.Unbounded(Scd4xMeasureSingleShot, Scd4xGetDataReadyFlag, Scd4xReadMeasurement, []))
    && (pm.Some? <==> Ok(weather) && Succeeds(co2))
    && (pm.Some? ==> pm.value.Unbounded(Sps30StartMeasurement, Sps30ReadDataReady, Sps30ReadMeasurement, [Sps30StopMeasurement]))
  }

  /**
   * One record was pushed to the "sensor" stream, after the calls made
   * before, carrying the weather sample, the CO2 count when the SCD4x wrote
   * one, and the SPS30 sample.
   */
  predicate PublishedOnce(before: seq<Call<Report>>, after: seq<Call<Report>>,
                          weather: seq<Transaction>, co2: Option<Phases>, pm: Option<Phases>)
  {
    && |after| == |before| + 1 && after[..|before|] == before
    && after[|before|].request.StreamPush? && after[|before|].request.path == "sensor"
    && var r := after[|before|].request.payload;
    && (|weather| == 1 && weather[0].reply.WeatherSample? ==>
          r.weather == WeatherOf(weather[0].reply))
    && (co2.Some? && Co2Written(co2.value) ==> r.co2 == co2.value.rest[0].reply.co2)
    && (pm.Some? && PmSampleOf(pm.value).Some? ==> r.pm == PmSampleOf(pm.value).value)
  }
}
