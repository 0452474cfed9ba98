/**
 * The hardware below the firmware, as the firmware sees it: the Sensirion
 * SPS30 and SCD4x drivers and Zephyr's sensor API for the BME280, all on one
 * shared I2C bus. Their internals are opaque; each command returns a status
 * (0 on success) that the model leaves nondeterministic, and every command is
 * recorded as a `Transaction` in the bus log, with the lock depth at which
 * the caller held the addressed device's mutex when issuing it (its
 * `lockCount`, 0 for a caller without a mutex).
 */
module SensorBus {
  import opened Stdint

  /** `struct sps30_measurement` of the Sensirion driver (floats read as reals). */
  datatype Pm = Pm(
    mc1p0: real, mc2p5: real, mc4p0: real, mc10p0: real,
    nc0p5: real, nc1p0: real, nc2p5: real, nc4p0: real, nc10p0: real,
    typicalParticleSize: real)

  /** The driver calls the firmware makes, with their arguments. */
  datatype Cmd =
    // SPS30 particulate-matter sensor
    | Sps30Reset
    | Sps30Probe
    | Sps30ReadFirmwareVersion
    | Sps30GetSerial
    | Sps30StartMeasurement
    | Sps30StopMeasurement
    | Sps30ReadDataReady
    | Sps30ReadMeasurement
    | Sps30SetFanAutoCleaningInterval(seconds: int)
    | Sps30StartManualFanCleaning
    // SCD4x CO2 sensor
    | Scd4xWakeUp
    | Scd4xStopPeriodicMeasurement
    | Scd4xReinit
    | Scd4xGetSerialNumber
    | Scd4xMeasureSingleShot
    | Scd4xGetDataReadyFlag
    | Scd4xReadMeasurement
    | Scd4xSetTemperatureOffset(milliDegC: int)
    | Scd4xSetSensorAltitude(meters: int)
    | Scd4xSetAutomaticSelfCalibration(enabled: bool)
    // BME280 weather sensor, through Zephyr's sensor API
    | Bme280SampleFetch
  {
    /** Commands that only return a status. */
    predicate Plain()
    {
      !(Sps30ReadDataReady? || Sps30ReadMeasurement? || Scd4xGetDataReadyFlag?
        || Scd4xReadMeasurement? || Bme280SampleFetch?)
    }
  }

  /** What a command hands back besides its status. */
  datatype Reply =
    | NoData
    | DataReady(ready: bool)
    | PmSample(pm: Pm)
    | Co2Sample(co2: uint16, temperatureMilliDegC: int32, humidityMilliPercent: int32)
    | WeatherSample(temperature: real, pressure: real, humidity: real)

  /** An SCD4x measurement as the firmware keeps it: ppm, degrees Celsius, percent relative humidity. */
  datatype Co2Reading = Co2Reading(co2: uint16, temperature: real, humidity: real)

  /** A milli-unit reading divided by 1000, as `x / 1000.0` does. */
  function FromMilli(m: int): real
  {
    m as real / 1000.0
  }

  /** The measurement a successful `scd4x_read_measurement` reply converts to. */
  function Co2ReadingOf(r: Reply): Co2Reading
    requires r.Co2Sample?
  {
    Co2Reading(r.co2, FromMilli(r.temperatureMilliDegC), FromMilli(r.humidityMilliPercent))
  }

  /** The three BME280 channels: degrees Celsius, kilopascals, percent relative humidity. */
  datatype Weather = Weather(temperature: real, pressure: real, humidity: real)

  /** The channels a successful BME280 sample fetch makes available. */
  function WeatherOf(r: Reply): Weather
    requires r.WeatherSample?
  {
    Weather(r.temperature, r.pressure, r.humidity)
  }

  /** The fourteen values formatted into a "sensor" stream record: weather, CO2 in ppm, particulate matter. */
  datatype Report = Report(weather: Weather, co2: int, pm: Pm)

  /**
   * One driver call as the bus saw it. `lockDepth` is the depth the caller
   * reports, not one the bus reads from the device's mutex: every guarded
   * call site passes its mutex's `lockCount` (directly, or through a
   * `Polling` helper, or as a copy taken in a method that cannot modify the
   * mutex), and every unguarded one passes 0. The bus does not read the
   * mutex itself, which keeps each proof's heap small; the price is that a
   * call site passing a stale count would go unnoticed by the verifier.
   */
  datatype Transaction = Transaction(cmd: Cmd, status: int, reply: Reply, lockDepth: nat)

  /**
   * The bus with its three devices. A measurement started on the SCD4x or
   * the SPS30 becomes ready after some finite number of data-ready queries,
   * unknown to the firmware (`*PollsUntilReady`).
   */
  class Bus {
    var log: seq<Transaction>
    var scd4xPollsUntilReady: nat
    var sps30PollsUntilReady: nat
    /** `bme280_dev != NULL` and `device_is_ready(bme280_dev)`. */
    const bme280Found: bool
    const bme280Ready: bool

    constructor (bme280Found: bool, bme280Ready: bool)
      ensures log == [] && this.bme280Found == bme280Found && this.bme280Ready == bme280Ready
    {
      log := [];
      this.bme280Found := bme280Found;
      this.bme280Ready := bme280Ready;
    }

    /** A command that only returns a status. Starting a measurement restarts the device's readiness countdown. */
    method Command(cmd: Cmd, depth: nat) returns (status: int)
      requires cmd.Plain()
      modifies this
      ensures log == old(log) + [Transaction(cmd, status, NoData, depth)]
      ensures cmd != Sps30StartMeasurement ==> sps30PollsUntilReady == old(sps30PollsUntilReady)
      ensures cmd != Scd4xMeasureSingleShot ==> scd4xPollsUntilReady == old(scd4xPollsUntilReady)
    {
      status := *;
      if cmd == Sps30StartMeasurement {
        sps30PollsUntilReady := *;
      } else if cmd == Scd4xMeasureSingleShot {
        scd4xPollsUntilReady := *;
      }
      log := log + [Transaction(cmd, status, NoData, depth)];
    }

    /** `sps30_read_data_ready`: on success, ready exactly when the countdown has run out. */
    method Sps30DataReady(depth: nat) returns (status: int, ready: bool)
      modifies this
      ensures log == old(log) + [Transaction(Sps30ReadDataReady, status, DataReady(ready), depth)]
      ensures status != 0 ==> !ready && sps30PollsUntilReady == old(sps30PollsUntilReady)
      ensures status == 0 ==> (ready <==> old(sps30PollsUntilReady) == 0)
      ensures status == 0 && !ready ==> sps30PollsUntilReady == old(sps30PollsUntilReady) - 1
      ensures ready ==> sps30PollsUntilReady == 0
      ensures scd4xPollsUntilReady == old(scd4xPollsUntilReady)
    {
      status := *;
      if status != 0 {
        ready := false;
      } else if sps30PollsUntilReady == 0 {
        ready := true;
      } else {
        ready := false;
        sps30PollsUntilReady := sps30PollsUntilReady - 1;
      }
      log := log + [Transaction(Sps30ReadDataReady, status, DataReady(ready), depth)];
    }

    /** `sps30_read_measurement`: one sample; the next one becomes ready later. */
    method Sps30Measurement(depth: nat) returns (status: int, pm: Pm)
      modifies this
      ensures log == old(log) + [Transaction(Sps30ReadMeasurement, status, PmSample(pm), depth)]
      ensures scd4xPollsUntilReady == old(scd4xPollsUntilReady)
    {
      status := *;
      pm := *;
      sps30PollsUntilReady := *;
      log := log + [Transaction(Sps30ReadMeasurement, status, PmSample(pm), depth)];
    }

    /** `scd4x_get_data_ready_flag`: on success, ready exactly when the countdown has run out. */
    method Scd4xDataReady(depth: nat) returns (status: int, ready: bool)
      modifies this
      ensures log == old(log) + [Transaction(Scd4xGetDataReadyFlag, status, DataReady(ready), depth)]
      ensures status != 0 ==> !ready && scd4xPollsUntilReady == old(scd4xPollsUntilReady)
      ensures status == 0 ==> (ready <==> old(scd4xPollsUntilReady) == 0)
      ensures status == 0 && !ready ==> scd4xPollsUntilReady == old(scd4xPollsUntilReady) - 1
      ensures ready ==> scd4xPollsUntilReady == 0
      ensures sps30PollsUntilReady == old(sps30PollsUntilReady)
    {
      status := *;
      if status != 0 {
        ready := false;
      } else if scd4xPollsUntilReady == 0 {
        ready := true;
      } else {
        ready := false;
        scd4xPollsUntilReady := scd4xPollsUntilReady - 1;
      }
      log := log + [Transaction(Scd4xGetDataReadyFlag, status, DataReady(ready), depth)];
    }

    /** `scd4x_read_measurement`: CO2 in ppm, temperature and humidity in milli-units. */
    method Scd4xMeasurement(depth: nat) returns (status: int, co2: uint16, temperatureMilliDegC: int32, humidityMilliPercent: int32)
      modifies this
      ensures log == old(log) + [Transaction(Scd4xReadMeasurement, status,
                Co2Sample(co2, temperatureMilliDegC, humidityMilliPercent), depth)]
      ensures scd4xPollsUntilReady == old(scd4xPollsUntilReady)
      ensures sps30PollsUntilReady == old(sps30PollsUntilReady)
    {
      status := *;
      co2 := *;
      temperatureMilliDegC := *;
      humidityMilliPercent := *;
      log := log + [Transaction(Scd4xReadMeasurement, status,
        Co2Sample(co2, temperatureMilliDegC, humidityMilliPercent), depth)];
    }

    /**
     * `sensor_sample_fetch` on the BME280; the reply holds what the three
     * `sensor_channel_get` calls then return.
     */
    method Bme280Fetch(depth: nat) returns (status: int, temperature: real, pressure: real, humidity: real)
      modifies this
      ensures log == old(log) + [Transaction(Bme280SampleFetch, status,
                WeatherSample(temperature, pressure, humidity), depth)]
      ensures scd4xPollsUntilReady == old(scd4xPollsUntilReady)
      ensures sps30PollsUntilReady == old(sps30PollsUntilReady)
    {
      status := *;
      temperature := *;
      pressure := *;
      humidity := *;
      log := log + [Transaction(Bme280SampleFetch, status,
        WeatherSample(temperature, pressure, humidity), depth)];
    }
  }
}
