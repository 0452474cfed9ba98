/**
 * The newest read cycle (`app_sensors.c`): initialise the three sensors,
 * then, on each cycle, read all three whatever fails, keep the last good
 * values in static buffers, and push them to the "sensor" stream only when
 * a JSON buffer could be allocated and the client is connected.
 */
module AppSensors {
  import opened Stdint
  import opened Wrappers
  import opened SensorBus
  import opened Transcripts
  import opened Golioth
  import SensorBme280
  import Scd4x = SensorScd4x
  import Sps30 = SensorSps30

  /** The stream push a cycle makes from the buffered values. */
  function Push(weather: Weather, co2: Co2Reading, pm: Pm): Request<Report>
  {
    StreamPush("sensor", Report(weather, co2.co2, pm))
  }

  /**
   * The file's state: the client, the three drivers, the static
   * measurement buffers of `app_sensors_read_and_stream`, and the number of
   * JSON buffers allocated and not yet freed.
   */
  class Cycle {
    const client: Client<Report>
    const bus: Bus
    const scd4x: Scd4x.Scd4x
    const sps30: Sps30.Sps30
    var weather: Weather
    var co2: Co2Reading
    var pm: Pm
    var liveBuffers: nat

    /** The drivers share the bus the cycle reads from. */
    predicate Valid()
      reads this, scd4x, sps30
    {
      scd4x.bus == bus && sps30.bus == bus
    }

    /**
     * `app_sensors_set_client`, with the drivers in place. The static
     * buffers start zeroed, as C statics do, so a push after failed first
     * reads carries zeros.
     */
    constructor (client: Client<Report>, bus: Bus, scd4x: Scd4x.Scd4x, sps30: Sps30.Sps30)
      requires scd4x.bus == bus && sps30.bus == bus
      ensures Valid()
      ensures this.client == client && this.bus == bus && this.scd4x == scd4x && this.sps30 == sps30
      ensures weather == Weather(0.0, 0.0, 0.0) && co2 == Co2Reading(0, 0.0, 0.0) && pm == Sps30.Zero
      ensures liveBuffers == 0
    {
      this.client := client;
      this.bus := bus;
      this.scd4x := scd4x;
      this.sps30 := sps30;
      weather := Weather(0.0, 0.0, 0.0);
      co2 := Co2Reading(0, 0.0, 0.0);
      pm := Sps30.Zero;
      liveBuffers := 0;
    }

    /**
     * `app_sensors_init`: initialise the BME280, then the SCD4x, then the
     * SPS30, each whatever the one before returned; their results are
     * discarded.
     */
    method Init() returns (ghost scd: Scd4x.InitRun, ghost sps: Sps30.InitRun)
      requires Valid()
      modifies bus, scd4x.mutex, sps30.mutex
      ensures bus.log == old(bus.log) + scd.All() + sps.All()
      ensures Scd4x.InitShape(scd, old(scd4x.mutex.lockCount) + 1)
      ensures Sps30.InitShape(sps, old(sps30.mutex.lockCount) + 1)
    {
      var err := SensorBme280.Init(bus);
      err, scd := scd4x.Init();
      ghost var log := bus.log;
      err, sps := sps30.Init();
      assert bus.log == log + sps.All();
    }

    /**
     * `app_sensors_read_and_stream`: read the BME280, the SCD4x and the
     * SPS30 in that order, none skipped when another fails, each buffer
     * overwritten only by a successful read; then stream the buffered
     * values. `samples` is what
     * `get_sps30_samples_per_measurement_s` returns.
     */
    method ReadAndStream(samples: uint32) returns (ghost w: Transaction, ghost c: Option<Phases>,
      ghost rounds: seq<Sps30.Round>, ghost bufferOk: bool, ghost sent: seq<Call<Report>>)
      requires Valid() && samples >= 1
      modifies this, bus, scd4x.mutex, sps30.mutex, client
      ensures Valid()
      ensures bus.log == old(bus.log) + [w] + Flat(c) + Sps30.Traffic(rounds)
      ensures w.cmd == Bme280SampleFetch && w.reply.WeatherSample?
      ensures weather == if w.status == 0 then WeatherOf(w.reply) else old(weather)
      ensures Scd4x.ReadShape(c, old(scd4x.mutex.lockCount) + 1)
      ensures co2 == if c.Some? && Co2Written(c.value) then Co2ReadingOf(c.value.rest[0].reply) else old(co2)
      ensures 1 <= |rounds| <= samples
      ensures pm == if rounds[|rounds| - 1].Status() == 0 then Sps30.Mean(Sps30.Samples(rounds)) else old(pm)
      ensures client.calls == old(client.calls) + sent
      ensures |sent| == (if bufferOk && client.connected then 1 else 0)
      ensures sent != [] ==> sent[0].request == Push(weather, co2, pm)
      ensures liveBuffers == old(liveBuffers)
    {
      w := ReadWeather();
      ghost var log := bus.log;
      c := ReadCo2();
      assert bus.log == log + Flat(c);
      log := bus.log;
      rounds := ReadPm(samples);
      assert bus.log == log + Sps30.Traffic(rounds);
      bufferOk, sent := Stream();
    }

    /** The BME280 read of `app_sensors_read_and_stream`. */
    method ReadWeather() returns (ghost w: Transaction)
      modifies this`weather, bus
      ensures bus.log == old(bus.log) + [w]
      ensures w.cmd == Bme280SampleFetch && w.reply.WeatherSample?
      ensures weather == if w.status == 0 then WeatherOf(w.reply) else old(weather)
    {
      var err;
      err, weather, w := SensorBme280.Read(bus, weather);
    }

    /** The SCD4x read of `app_sensors_read_and_stream`. */
    method ReadCo2() returns (ghost c: Option<Phases>)
      requires Valid()
      modifies this`co2, bus, scd4x.mutex
      ensures bus.log == old(bus.log) + Flat(c)
      ensures Scd4x.ReadShape(c, old(scd4x.mutex.lockCount) + 1)
      ensures co2 == if c.Some? && Co2Written(c.value) then Co2ReadingOf(c.value.rest[0].reply) else old(co2)
    {
      var err;
      err, co2, c := scd4x.Read(co2);
    }

    /** The SPS30 read of `app_sensors_read_and_stream`, averaging `samples` samples. */
    method ReadPm(samples: uint32) returns (ghost rounds: seq<Sps30.Round>)
      requires Valid() && samples >= 1
      modifies this`pm, bus, sps30.mutex
      ensures bus.log == old(bus.log) + Sps30.Traffic(rounds)
      ensures 1 <= |rounds| <= samples
      ensures pm == if rounds[|rounds| - 1].Status() == 0 then Sps30.Mean(Sps30.Samples(rounds)) else old(pm)
    {
      var err;
      err, pm, rounds := sps30.Read(pm, samples);
    }

    /**
     * The streaming half of `app_sensors_read_and_stream`: allocate a JSON
     * buffer (which may fail, and then nothing is sent), push the buffered
     * values once if the client is connected, and free the buffer on every
     * path that allocated it.
     */
    method Stream() returns (ghost bufferOk: bool, ghost sent: seq<Call<Report>>)
      modifies this`liveBuffers, client
      ensures client.calls == old(client.calls) + sent
      ensures |sent| == (if bufferOk && client.connected then 1 else 0)
      ensures sent != [] ==> sent[0].request == Push(weather, co2, pm)
      ensures liveBuffers == old(liveBuffers)
    {
      sent := [];
      var buffer: bool := *;
      bufferOk := buffer;
      if !buffer {
        return;
      }
      liveBuffers := liveBuffers + 1;
      var connected := client.IsConnected();
      if connected {
        var err := client.Send(Push(weather, co2, pm));
        sent := [Call(Push(weather, co2, pm), err)];
      }
      liveBuffers := liveBuffers - 1;
    }
  }
}
