/**
 * The older sensor layer (`sensors.c`): the BME280, SCD4x and SPS30
 * operations, each behind its device's own mutex, locked with `K_FOREVER`.
 * Every operation takes its mutex once and releases it once on every path;
 * the SCD4x bring-up releases it before its throw-away read, which takes it
 * again.
 */
module Sensors {
  import opened Stdint
  import opened Wrappers
  import opened Zephyr
  import opened SensorBus
  import opened Transcripts
  import opened Polling

  /** The three `K_MUTEX_DEFINE` mutexes of the file, with the devices they guard. */
  class Devices {
    const bus: Bus
    const bme280Mutex: Mutex
    const scd4xMutex: Mutex
    const sps30Mutex: Mutex

    constructor (bus: Bus)
      ensures this.bus == bus
      ensures fresh(bme280Mutex) && fresh(scd4xMutex) && fresh(sps30Mutex)
      ensures bme280Mutex.lockCount == 0 && scd4xMutex.lockCount == 0 && sps30Mutex.lockCount == 0
    {
      this.bus := bus;
      bme280Mutex := new Mutex();
      scd4xMutex := new Mutex();
      sps30Mutex := new Mutex();
    }

    /**
     * `bme280_sensor_init`: `-ENODEV` when the device node is missing or
     * not ready, else 0; nothing is issued on the bus.
     */
    method Bme280Init() returns (err: int)
      modifies bme280Mutex
      ensures err == if bus.bme280Found && bus.bme280Ready then 0 else -ENODEV
      ensures bme280Mutex.lockCount == old(bme280Mutex.lockCount)
      ensures bme280Mutex.acquisitions == old(bme280Mutex.acquisitions) + 1
      ensures bme280Mutex.releases == old(bme280Mutex.releases) + 1
    {
      var locked := bme280Mutex.Lock(Forever);
      if !bus.bme280Found {
        bme280Mutex.Unlock();
        return -ENODEV;
      }
      if !bus.bme280Ready {
        bme280Mutex.Unlock();
        return -ENODEV;
      }
      bme280Mutex.Unlock();
      err := 0;
    }

    /** `bme280_sensor_read`: one sample fetch under the mutex; the channels are written only when it succeeded. */
    method Bme280Read(prev: Weather) returns (err: int, m: Weather, ghost t: Transaction)
      modifies bus, bme280Mutex
      ensures bus.log == old(bus.log) + [t]
      ensures t.cmd == Bme280SampleFetch && t.reply.WeatherSample? && t.lockDepth == old(bme280Mutex.lockCount) + 1
      ensures err == t.status
      ensures m == if err == 0 then WeatherOf(t.reply) else prev
      ensures bme280Mutex.lockCount == old(bme280Mutex.lockCount)
      ensures bme280Mutex.acquisitions == old(bme280Mutex.acquisitions) + 1
      ensures bme280Mutex.releases == old(bme280Mutex.releases) + 1
    {
      var locked := bme280Mutex.Lock(Forever);
      var temperature, pressure, humidity;
      err, temperature, pressure, humidity := bus.Bme280Fetch(bme280Mutex.lockCount);
      t := Transaction(Bme280SampleFetch, err, WeatherSample(temperature, pressure, humidity), bme280Mutex.lockCount);
      if err != 0 {
        bme280Mutex.Unlock();
        return err, prev, t;
      }
      m := Weather(temperature, pressure, humidity);
      bme280Mutex.Unlock();
    }

    /**
     * `scd4x_sensor_init`: the set-up calls under the mutex, which is then
     * released; only if they all succeeded, the throw-away read, which
     * takes the mutex again at the same depth.
     */
    method Scd4xInit() returns (err: int, ghost steps: seq<Transaction>, ghost throwaway: Option<Phases>)
      modifies bus, scd4xMutex
      ensures bus.log == old(bus.log) + steps + Flat(throwaway)
      ensures Scd4xInitShape(steps, throwaway, old(scd4xMutex.lockCount) + 1)
      ensures err == if throwaway.Some? then throwaway.value.Status() else Last(steps).status
      ensures scd4xMutex.lockCount == old(scd4xMutex.lockCount)
      ensures scd4xMutex.acquisitions == old(scd4xMutex.acquisitions) + (if throwaway.Some? then 2 else 1)
      ensures scd4xMutex.releases == old(scd4xMutex.releases) + (if throwaway.Some? then 2 else 1)
    {
      var locked := scd4xMutex.Lock(Forever);
      err, steps := Scd4xPrepare();
      scd4xMutex.Unlock();
      if err != 0 {
        throwaway := None;
        return;
      }
      ghost var log := bus.log;
      var measurement: Co2Reading := *;
      ghost var p;
      err, measurement, p := Scd4xRead(measurement);
      throwaway := Some(p);
      assert bus.log == log + Flat(throwaway);
    }

    /** The set-up calls of `scd4x_sensor_init`: wake up, stop periodic measurement, reinitialise, serial number. */
    method Scd4xPrepare() returns (err: int, ghost steps: seq<Transaction>)
      modifies bus
      ensures bus.log == old(bus.log) + steps
      ensures StoppedAtFirstFailure(steps, Scd4xInitCmds) && AtDepth(steps, scd4xMutex.lockCount)
      ensures err == Last(steps).status
    {
      ghost var depth := scd4xMutex.lockCount;
      err := bus.Command(Scd4xWakeUp, scd4xMutex.lockCount);
      ghost var wake := Transaction(Scd4xWakeUp, err, NoData, depth);
      if err != 0 {
        return err, [wake];
      }
      err := bus.Command(Scd4xStopPeriodicMeasurement, scd4xMutex.lockCount);
      ghost var stop := Transaction(Scd4xStopPeriodicMeasurement, err, NoData, depth);
      if err != 0 {
        return err, [wake, stop];
      }
      err := bus.Command(Scd4xReinit, scd4xMutex.lockCount);
      ghost var reinit := Transaction(Scd4xReinit, err, NoData, depth);
      if err != 0 {
        return err, [wake, stop, reinit];
      }
      err := bus.Command(Scd4xGetSerialNumber, scd4xMutex.lockCount);
      steps := [wake, stop, reinit, Transaction(Scd4xGetSerialNumber, err, NoData, depth)];
    }

    /**
     * `scd4x_sensor_read`: take the mutex, measure, release it. Every exit
     * of the C function after the lock releases it once, so the steps
     * between are `Scd4xMeasure`.
     */
    method Scd4xRead(prev: Co2Reading) returns (err: int, m: Co2Reading, ghost p: Phases)
      modifies bus, scd4xMutex
      ensures bus.log == old(bus.log) + p.All()
      ensures p.Unbounded(Scd4xMeasureSingleShot, Scd4xGetDataReadyFlag, Scd4xReadMeasurement, [])
      ensures p.AllAtDepth(old(scd4xMutex.lockCount) + 1)
      ensures err == p.Status()
      ensures m == if Co2Written(p) then Co2ReadingOf(p.rest[0].reply) else prev
      ensures scd4xMutex.lockCount == old(scd4xMutex.lockCount)
      ensures scd4xMutex.acquisitions == old(scd4xMutex.acquisitions) + 1
      ensures scd4xMutex.releases == old(scd4xMutex.releases) + 1
    {
      var locked := scd4xMutex.Lock(Forever);
      err, m, p := Scd4xMeasure(prev);
      scd4xMutex.Unlock();
    }

    /**
     * The steps of `scd4x_sensor_read` under the mutex: a single-shot
     * measurement, a data-ready wait with no bound, the read. A zero CO2
     * sample returns the read's status 0 without writing the output.
     */
    method Scd4xMeasure(prev: Co2Reading) returns (err: int, m: Co2Reading, ghost p: Phases)
      modifies bus
      ensures bus.log == old(bus.log) + p.All()
      ensures p.Unbounded(Scd4xMeasureSingleShot, Scd4xGetDataReadyFlag, Scd4xReadMeasurement, [])
      ensures p.AllAtDepth(scd4xMutex.lockCount)
      ensures err == p.Status()
      ensures m == if Co2Written(p) then Co2ReadingOf(p.rest[0].reply) else prev
    {
      ghost var depth := scd4xMutex.lockCount;
      var s := bus.Command(Scd4xMeasureSingleShot, scd4xMutex.lockCount);
      ghost var start := Transaction(Scd4xMeasureSingleShot, s, NoData, depth);
      if s != 0 {
        return s, prev, Phases(start, [], []);
      }
      ghost var wait;
      s, wait := AwaitReady(bus, scd4xMutex.lockCount, Scd4xGetDataReadyFlag);
      if s != 0 {
        return s, prev, Phases(start, wait, []);
      }
      var co2, temperature, humidity;
      s, co2, temperature, humidity := bus.Scd4xMeasurement(scd4xMutex.lockCount);
      p := Phases(start, wait, [Transaction(Scd4xReadMeasurement, s, Co2Sample(co2, temperature, humidity), depth)]);
      if s != 0 {
        return s, prev, p;
      } else if co2 == 0 {
        return s, prev, p;
      }
      m := Co2Reading(co2, FromMilli(temperature), FromMilli(humidity));
      err := s;
    }

    /** One SCD4x setting write under the mutex, as the three setters do it; its status is returned. */
    method Scd4xConfigure(cmd: Cmd) returns (err: int, ghost t: Transaction)
      requires cmd.Scd4xSetTemperatureOffset? || cmd.Scd4xSetSensorAltitude? || cmd.Scd4xSetAutomaticSelfCalibration?
      modifies bus, scd4xMutex
      ensures bus.log == old(bus.log) + [t]
      ensures t == Transaction(cmd, err, NoData, old(scd4xMutex.lockCount) + 1)
      ensures scd4xMutex.lockCount == old(scd4xMutex.lockCount)
      ensures scd4xMutex.acquisitions == old(scd4xMutex.acquisitions) + 1
      ensures scd4xMutex.releases == old(scd4xMutex.releases) + 1
    {
      var locked := scd4xMutex.Lock(Forever);
      err := bus.Command(cmd, scd4xMutex.lockCount);
      t := Transaction(cmd, err, NoData, scd4xMutex.lockCount);
      scd4xMutex.Unlock();
    }

    /** `scd4x_sensor_set_temperature_offset`, in milli-degrees Celsius. */
    method Scd4xSetTemperatureOffset(offset: int32) returns (err: int, ghost t: Transaction)
      modifies bus, scd4xMutex
      ensures bus.log == old(bus.log) + [t]
      ensures t == Transaction(Cmd.Scd4xSetTemperatureOffset(offset), err, NoData, old(scd4xMutex.lockCount) + 1)
      ensures scd4xMutex.lockCount == old(scd4xMutex.lockCount)
      ensures scd4xMutex.acquisitions == old(scd4xMutex.acquisitions) + 1
      ensures scd4xMutex.releases == old(scd4xMutex.releases) + 1
    {
      err, t := Scd4xConfigure(Cmd.Scd4xSetTemperatureOffset(offset));
    }

    /** `scd4x_sensor_set_sensor_altitude`, in metres. */
    method Scd4xSetSensorAltitude(altitude: int16) returns (err: int, ghost t: Transaction)
      modifies bus, scd4xMutex
      ensures bus.log == old(bus.log) + [t]
      ensures t == Transaction(Cmd.Scd4xSetSensorAltitude(altitude), err, NoData, old(scd4xMutex.lockCount) + 1)
      ensures scd4xMutex.lockCount == old(scd4xMutex.lockCount)
      ensures scd4xMutex.acquisitions == old(scd4xMutex.acquisitions) + 1
      ensures scd4xMutex.releases == old(scd4xMutex.releases) + 1
    {
      err, t := Scd4xConfigure(Cmd.Scd4xSetSensorAltitude(altitude));
    }

    /** `scd4x_sensor_set_automatic_self_calibration`. */
    method Scd4xSetAutomaticSelfCalibration(enabled: bool) returns (err: int, ghost t: Transaction)
      modifies bus, scd4xMutex
      ensures bus.log == old(bus.log) + [t]
      ensures t == Transaction(Cmd.Scd4xSetAutomaticSelfCalibration(enabled), err, NoData, old(scd4xMutex.lockCount) + 1)
      ensures scd4xMutex.lockCount == old(scd4xMutex.lockCount)
      ensures scd4xMutex.acquisitions == old(scd4xMutex.acquisitions) + 1
      ensures scd4xMutex.releases == old(scd4xMutex.releases) + 1
    {
      err, t := Scd4xConfigure(Cmd.Scd4xSetAutomaticSelfCalibration(enabled));
    }

    /**
     * `sps30_sensor_init`: reset, probe once, firmware version, serial
     * number under the mutex, up to the first failure.
     */
    method Sps30Init() returns (err: int, ghost steps: seq<Transaction>)
      modifies bus, sps30Mutex
      ensures bus.log == old(bus.log) + steps
      ensures StoppedAtFirstFailure(steps, Sps30InitCmds) && AtDepth(steps, old(sps30Mutex.lockCount) + 1)
      ensures err == Last(steps).status
      ensures sps30Mutex.lockCount == old(sps30Mutex.lockCount)
      ensures sps30Mutex.acquisitions == old(sps30Mutex.acquisitions) + 1
      ensures sps30Mutex.releases == old(sps30Mutex.releases) + 1
    {
      var locked := sps30Mutex.Lock(Forever);
      err, steps := Sps30BringUp();
      sps30Mutex.Unlock();
    }

    /** The steps of `sps30_sensor_init` under the mutex. */
    method Sps30BringUp() returns (err: int, ghost steps: seq<Transaction>)
      modifies bus
      ensures bus.log == old(bus.log) + steps
      ensures StoppedAtFirstFailure(steps, Sps30InitCmds) && AtDepth(steps, sps30Mutex.lockCount)
      ensures err == Last(steps).status
    {
      ghost var depth := sps30Mutex.lockCount;
      err := bus.Command(Sps30Reset, sps30Mutex.lockCount);
      ghost var reset := Transaction(Sps30Reset, err, NoData, depth);
      if err != 0 {
        return err, [reset];
      }
      err := bus.Command(Sps30Probe, sps30Mutex.lockCount);
      ghost var probe := Transaction(Sps30Probe, err, NoData, depth);
      if err != 0 {
        return err, [reset, probe];
      }
      err := bus.Command(Sps30ReadFirmwareVersion, sps30Mutex.lockCount);
      ghost var version := Transaction(Sps30ReadFirmwareVersion, err, NoData, depth);
      if err != 0 {
        return err, [reset, probe, version];
      }
      err := bus.Command(Sps30GetSerial, sps30Mutex.lockCount);
      steps := [reset, probe, version, Transaction(Sps30GetSerial, err, NoData, depth)];
    }

    /**
     * `sps30_sensor_read`: take the mutex, measure, release it. Every exit
     * of the C function after the lock releases it once, so the steps
     * between are `Sps30Measure`.
     */
    method Sps30Read(prev: Pm) returns (err: int, m: Pm, ghost p: Phases)
      modifies bus, sps30Mutex
      ensures bus.log == old(bus.log) + p.All()
      ensures p.Unbounded(Sps30StartMeasurement, Sps30ReadDataReady, Sps30ReadMeasurement, [Sps30StopMeasurement])
      ensures p.AllAtDepth(old(sps30Mutex.lockCount) + 1)
      ensures err == p.Status()
      ensures m == if PmSampleOf(p).Some? then PmSampleOf(p).value else prev
      ensures sps30Mutex.lockCount == old(sps30Mutex.lockCount)
      ensures sps30Mutex.acquisitions == old(sps30Mutex.acquisitions) + 1
      ensures sps30Mutex.releases == old(sps30Mutex.releases) + 1
    {
      var locked := sps30Mutex.Lock(Forever);
      err, m, p := Sps30Measure(prev);
      sps30Mutex.Unlock();
    }

    /**
     * The steps of `sps30_sensor_read` under the mutex: start measurement,
     * a data-ready wait with no bound, the read, then stop measurement. The
     * output is written as soon as the read succeeds, before stopping.
     */
    method Sps30Measure(prev: Pm) returns (err: int, m: Pm, ghost p: Phases)
      modifies bus
      ensures bus.log == old(bus.log) + p.All()
      ensures p.Unbounded(Sps30StartMeasurement, Sps30ReadDataReady, Sps30ReadMeasurement, [Sps30StopMeasurement])
      ensures p.AllAtDepth(sps30Mutex.lockCount)
      ensures err == p.Status()
      ensures PmSampleOf(p).Some? ==> m == PmSampleOf(p).value
      ensures PmSampleOf(p).None? ==> m == prev
    {
      var depth := sps30Mutex.lockCount;
      var s := bus.Command(Sps30StartMeasurement, depth);
      ghost var start := Transaction(Sps30StartMeasurement, s, NoData, depth);
      if s != 0 {
        return s, prev, Phases(start, [], []);
      }
      ghost var wait;
      s, wait := AwaitReady(bus, sps30Mutex.lockCount, Sps30ReadDataReady);
      if s != 0 {
        return s, prev, Phases(start, wait, []);
      }
      ghost var rest;
      err, m, rest := ReadPmAndStop(bus, depth, prev);
      p := Phases(start, wait, rest);
    }

    /** `sps30_sensor_set_fan_auto_cleaning_interval`, in seconds, under the mutex. */
    method Sps30SetFanAutoCleaningInterval(seconds: uint32) returns (err: int, ghost t: Transaction)
      modifies bus, sps30Mutex
      ensures bus.log == old(bus.log) + [t]
      ensures t == Transaction(Cmd.Sps30SetFanAutoCleaningInterval(seconds as int), err, NoData, old(sps30Mutex.lockCount) + 1)
      ensures sps30Mutex.lockCount == old(sps30Mutex.lockCount)
      ensures sps30Mutex.acquisitions == old(sps30Mutex.acquisitions) + 1
      ensures sps30Mutex.releases == old(sps30Mutex.releases) + 1
    {
      var locked := sps30Mutex.Lock(Forever);
      err := bus.Command(Cmd.Sps30SetFanAutoCleaningInterval(seconds as int), sps30Mutex.lockCount);
      t := Transaction(Cmd.Sps30SetFanAutoCleaningInterval(seconds as int), err, NoData, sps30Mutex.lockCount);
      sps30Mutex.Unlock();
    }

    /**
     * `sps30_sensor_clean_fan`: start measurement, manual cleaning, stop,
     * under the mutex; a failure skips the remaining steps.
     */
    method Sps30CleanFan() returns (err: int, ghost t: seq<Transaction>)
      modifies bus, sps30Mutex
      ensures bus.log == old(bus.log) + t
      ensures StoppedAtFirstFailure(t, CleanFanCmds) && AtDepth(t, old(sps30Mutex.lockCount) + 1)
      ensures err == Last(t).status
      ensures sps30Mutex.lockCount == old(sps30Mutex.lockCount)
      ensures sps30Mutex.acquisitions == old(sps30Mutex.acquisitions) + 1
      ensures sps30Mutex.releases == old(sps30Mutex.releases) + 1
    {
      var locked := sps30Mutex.Lock(Forever);
      err, t := Sps30Clean();
      sps30Mutex.Unlock();
    }

    /** The steps of `sps30_sensor_clean_fan` under the mutex. */
    method Sps30Clean() returns (err: int, ghost t: seq<Transaction>)
      modifies bus
      ensures bus.log == old(bus.log) + t
      ensures StoppedAtFirstFailure(t, CleanFanCmds) && AtDepth(t, sps30Mutex.lockCount)
      ensures err == Last(t).status
    {
      ghost var depth := sps30Mutex.lockCount;
      err := bus.Command(Sps30StartMeasurement, sps30Mutex.lockCount);
      ghost var start := Transaction(Sps30StartMeasurement, err, NoData, depth);
      if err != 0 {
        return err, [start];
      }
      err := bus.Command(Sps30StartManualFanCleaning, sps30Mutex.lockCount);
      ghost var clean := Transaction(Sps30StartManualFanCleaning, err, NoData, depth);
      if err != 0 {
        return err, [start, clean];
      }
      err := bus.Command(Sps30StopMeasurement, sps30Mutex.lockCount);
      t := [start, clean, Transaction(Sps30StopMeasurement, err, NoData, depth)];
    }
  }
}
