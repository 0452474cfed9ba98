/**
 * The BME280 weather sensor as the newest sensor layer drives it
 * (`sensor_bme280.c`): no mutex, a device check at initialisation and one
 * sample fetch per read.
 */
module SensorBme280 {
  import opened Zephyr
  import opened SensorBus

  /** `bme280_sensor_init`: `-ENODEV` when the device node is missing or not ready, else 0. */
  method Init(bus: Bus) returns (err: int)
    ensures err == if bus.bme280Found && bus.bme280Ready then 0 else -ENODEV
  {
    if !bus.bme280Found {
      return -ENODEV;
    }
    if !bus.bme280Ready {
      return -ENODEV;
    }
    err := 0;
  }

  /** `bme280_sensor_read`: one sample fetch; the channels are written only when it succeeded. */
  method Read(bus: Bus, prev: Weather) returns (err: int, m: Weather, ghost t: Transaction)
    modifies bus
    ensures bus.log == old(bus.log) + [t]
    ensures t.cmd == Bme280SampleFetch && t.reply.WeatherSample? && t.lockDepth == 0
    ensures err == t.status
    ensures m == if err == 0 then WeatherOf(t.reply) else prev
  {
    var temperature, pressure, humidity;
    err, temperature, pressure, humidity := bus.Bme280Fetch(0);
    t := Transaction(Bme280SampleFetch, err, WeatherSample(temperature, pressure, humidity), 0);
    if err != 0 {
      return err, prev, t;
    }
    m := Weather(temperature, pressure, humidity);
  }
}
