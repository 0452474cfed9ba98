/**
 * The SCD4x CO2 sensor behind its own recursive mutex (`sensor_scd4x.c`):
 * bring-up that takes its throw-away read while still holding the mutex,
 * single-shot reads with a data-ready wait that has no bound, and the three
 * setting writes.
 */
module SensorScd4x {
  import opened Stdint
  import opened Wrappers
  import opened Zephyr
  import opened SensorBus
  import opened Transcripts
  import opened Polling

  /** `SCD4X_MUTEX_TIMEOUT`: how long every operation waits for the mutex, in milliseconds. */
  const MutexTimeoutMs: nat := 6000

  /**
   * A guarded single-shot read: nothing on the bus if the mutex was not
   * taken; otherwise start, wait, read, each reached only when the one
   * before it succeeded, all with the mutex held `depth` times.
   */
  predicate ReadShape(p: Option<Phases>, depth: nat)
  {
    p.Some? ==>
      && p.value.Unbounded(Scd4xMeasureSingleShot, Scd4xGetDataReadyFlag, Scd4xReadMeasurement, [])
      && p.value.AllAtDepth(depth)
  }

  /** What `scd4x_sensor_init` did: the lock status, the set-up calls, the throw-away read. */
  datatype InitRun = InitRun(lock: int, steps: seq<Transaction>, throwaway: Option<Phases>)
  {
    function All(): seq<Transaction>
    {
      steps + Flat(throwaway)
    }

    /** The status of the last step reached, which is what bring-up returns. */
    function Status(): int
    {
      if lock != 0 then lock
      else if throwaway.Some? then throwaway.value.Status()
      else if steps != [] then Last(steps).status
      else 0
    }
  }

  /**
   * Bring-up with the mutex held `depth` times: the four set-up calls up to
   * the first failure, then, only if all succeeded, the throw-away read,
   * which locks the mutex once more.
   */
  predicate InitShape(r: InitRun, depth: nat)
  {
    && (r.lock != 0 ==> r.steps == [] && r.throwaway == None)
    && (r.lock == 0 ==>
          && StoppedAtFirstFailure(r.steps, Scd4xInitCmds)
          && (r.throwaway.Some? <==> Ok(r.steps)))
    && AtDepth(r.steps, depth)
    && ReadShape(r.throwaway, depth + 1)
  }

  /**
   * Bring-up returns 0 exactly when it took the mutex, all four set-up
   * calls succeeded and the throw-away read returned 0.
   */
  lemma InitOkIffAllSucceeded(r: InitRun, depth: nat)
    requires InitShape(r, depth)
    ensures r.Status() == 0 <==>
      && r.lock == 0 && |r.steps| == |Scd4xInitCmds|
      && (forall i :: 0 <= i < |r.steps| ==> r.steps[i].status == 0)
      && r.throwaway.Some? && r.throwaway.value.Status() == 0
  {
    if r.lock == 0 {
      StoppedAtFirstFailureOutcome(r.steps, Scd4xInitCmds);
    }
  }

  /**
   * A read returns 0 exactly when the single-shot start, the wait and the
   * read all succeeded; a zero CO2 sample is among those, yet it is not
   * written. It holds at every lock depth, so for every guarded read.
   */
  lemma ReadOkIffReadSucceeded(p: Phases, depth: nat)
    requires ReadShape(Some(p), depth)
    ensures p.Status() == 0 <==> p.ReadOk()
    ensures p.ReadOk() && p.rest[0].reply.Co2Sample? && p.rest[0].reply.co2 == 0 ==> p.Status() == 0 && !Co2Written(p)
  {
    if p.start.status == 0 && Last(p.wait).status == 0 {
      assert p.rest != [];
    }
  }

  /** `K_MUTEX_DEFINE(scd4x_mutex)` with the driver it guards. */
  class Scd4x {
    const bus: Bus
    const mutex: Mutex

    constructor (bus: Bus)
      ensures this.bus == bus && fresh(mutex)
      ensures mutex.lockCount == 0 && mutex.acquisitions == 0 && mutex.releases == 0
    {
      this.bus := bus;
      mutex := new Mutex();
    }

    /**
     * `scd4x_sensor_read`: take the mutex, measure, release the mutex. Every
     * exit of the C function after the lock releases it once, so the steps
     * between are `Measure`. A lock time-out writes nothing.
     */
    method Read(prev: Co2Reading) returns (err: int, m: Co2Reading, ghost p: Option<Phases>)
      modifies bus, mutex
      ensures bus.log == old(bus.log) + Flat(p)
      ensures ReadShape(p, old(mutex.lockCount) + 1)
      ensures p.None? ==> err == -EAGAIN && old(mutex.lockCount) == 0
      ensures p.Some? ==> err == p.value.Status()
      ensures m == if p.Some? && Co2Written(p.value) then Co2ReadingOf(p.value.rest[0].reply) else prev
      ensures mutex.lockCount == old(mutex.lockCount)
      ensures mutex.acquisitions == old(mutex.acquisitions) + (if p.Some? then 1 else 0)
      ensures mutex.releases == old(mutex.releases) + (if p.Some? then 1 else 0)
    {
      err := mutex.Lock(Millis(MutexTimeoutMs));
      if err != 0 {
        return err, prev, None;
      }
      ghost var q;
      err, m, q := Measure(prev);
      mutex.Unlock();
      p := Some(q);
    }

    /**
     * The steps of `scd4x_sensor_read` under the mutex: a single-shot
     * measurement, a data-ready wait with no bound, the read. The output is
     * written only for a successful read of a non-zero CO2 sample; a zero
     * sample returns the read's status 0 unwritten.
     */
    method Measure(prev: Co2Reading) returns (err: int, m: Co2Reading, ghost p: Phases)
      modifies bus
      ensures bus.log == old(bus.log) + p.All()
      ensures ReadShape(Some(p), mutex.lockCount)
      ensures err == p.Status()
      ensures m == if Co2Written(p) then Co2ReadingOf(p.rest[0].reply) else prev
    {
      m := prev;
      ghost var depth := mutex.lockCount;
      var s := bus.Command(Scd4xMeasureSingleShot, mutex.lockCount);
      ghost var start := Transaction(Scd4xMeasureSingleShot, s, NoData, depth);
      if s != 0 {
        return s, m, Phases(start, [], []);
      }
      ghost var wait;
      s, wait := AwaitReady(bus, mutex.lockCount, Scd4xGetDataReadyFlag);
      if s != 0 {
        return s, m, Phases(start, wait, []);
      }
      var co2, temperature, humidity;
      s, co2, temperature, humidity := bus.Scd4xMeasurement(mutex.lockCount);
      p := Phases(start, wait, [Transaction(Scd4xReadMeasurement, s, Co2Sample(co2, temperature, humidity), depth)]);
      if s != 0 {
        return s, m, p;
      } else if co2 == 0 {
        return s, m, p;
      }
      m := Co2Reading(co2, FromMilli(temperature), FromMilli(humidity));
      err := s;
    }

    /**
     * `scd4x_sensor_init`: take the mutex, bring the sensor up, release the
     * mutex. Every exit of the C function after the lock releases it once,
     * so the steps between are `BringUp`.
     */
    method Init() returns (err: int, ghost r: InitRun)
      modifies bus, mutex
      ensures bus.log == old(bus.log) + r.All()
      ensures InitShape(r, old(mutex.lockCount) + 1)
      ensures err == r.Status()
      ensures r.lock != 0 ==> r.lock == -EAGAIN && old(mutex.lockCount) == 0
      ensures mutex.lockCount == old(mutex.lockCount)
      ensures mutex.acquisitions - old(mutex.acquisitions) == mutex.releases - old(mutex.releases)
      ensures r.lock == 0 <==> mutex.acquisitions > old(mutex.acquisitions)
      ensures var n := if r.lock != 0 then 0 else if r.throwaway.Some? then 2 else 1;
        mutex.acquisitions == old(mutex.acquisitions) + n && mutex.releases == old(mutex.releases) + n
    {
      err := mutex.Lock(Millis(MutexTimeoutMs));
      if err != 0 {
        r := InitRun(err, [], None);
        return;
      }
      ghost var steps, throwaway;
      err, steps, throwaway := BringUp();
      mutex.Unlock();
      r := InitRun(0, steps, throwaway);
    }

    /**
     * The steps of `scd4x_sensor_init` under the mutex: the set-up calls,
     * then, if they all succeeded, the throw-away read, whose own lock is a
     * recursive acquisition and so cannot time out.
     */
    method BringUp() returns (err: int, ghost steps: seq<Transaction>, ghost throwaway: Option<Phases>)
      requires mutex.lockCount > 0
      modifies bus, mutex
      ensures bus.log == old(bus.log) + steps + Flat(throwaway)
      ensures StoppedAtFirstFailure(steps, Scd4xInitCmds) && AtDepth(steps, old(mutex.lockCount))
      ensures throwaway.Some? <==> Ok(steps)
      ensures ReadShape(throwaway, old(mutex.lockCount) + 1)
      ensures err == if throwaway.Some? then throwaway.value.Status() else Last(steps).status
      ensures mutex.lockCount == old(mutex.lockCount)
      ensures mutex.acquisitions - old(mutex.acquisitions) == mutex.releases - old(mutex.releases)
      ensures mutex.acquisitions - old(mutex.acquisitions) == (if throwaway.Some? then 1 else 0)
    {
      err, steps := Prepare();
      if err != 0 {
        throwaway := None;
        return;
      }
      ghost var log := bus.log;
      var measurement: Co2Reading := *;
      err, measurement, throwaway := Read(measurement);
      assert bus.log == log + Flat(throwaway);
    }

    /**
     * The set-up calls of `scd4x_sensor_init`: wake up, stop periodic
     * measurement, reinitialise, read the serial number, each only if the
     * one before succeeded.
     */
    method Prepare() returns (err: int, ghost steps: seq<Transaction>)
      modifies bus
      ensures bus.log == old(bus.log) + steps
      ensures StoppedAtFirstFailure(steps, Scd4xInitCmds) && AtDepth(steps, mutex.lockCount)
      ensures err == Last(steps).status
    {
      ghost var depth := mutex.lockCount;
      err := bus.Command(Scd4xWakeUp, mutex.lockCount);
      ghost var wake := Transaction(Scd4xWakeUp, err, NoData, depth);
      if err != 0 {
        return err, [wake];
      }
      err := bus.Command(Scd4xStopPeriodicMeasurement, mutex.lockCount);
      ghost var stop := Transaction(Scd4xStopPeriodicMeasurement, err, NoData, depth);
      if err != 0 {
        return err, [wake, stop];
      }
      err := bus.Command(Scd4xReinit, mutex.lockCount);
      ghost var reinit := Transaction(Scd4xReinit, err, NoData, depth);
      if err != 0 {
        return err, [wake, stop, reinit];
      }
      err := bus.Command(Scd4xGetSerialNumber, mutex.lockCount);
      steps := [wake, stop, reinit, Transaction(Scd4xGetSerialNumber, err, NoData, depth)];
    }

    /**
     * One setting write under the mutex, as the three setters do it: the
     * driver's status is returned, and the mutex is released whatever it
     * was. A lock time-out issues nothing.
     */
    method Configure(cmd: Cmd) returns (err: int, ghost t: seq<Transaction>)
      requires cmd.Scd4xSetTemperatureOffset? || cmd.Scd4xSetSensorAltitude? || cmd.Scd4xSetAutomaticSelfCalibration?
      modifies bus, mutex
      ensures bus.log == old(bus.log) + t
      ensures t == [] || t == [Transaction(cmd, err, NoData, old(mutex.lockCount) + 1)]
      ensures t == [] <==> err == -EAGAIN && mutex.acquisitions == old(mutex.acquisitions)
      ensures mutex.lockCount == old(mutex.lockCount)
      ensures mutex.acquisitions == old(mutex.acquisitions) + |t| && mutex.releases == old(mutex.releases) + |t|
    {
      t := [];
      err := mutex.Lock(Millis(MutexTimeoutMs));
      if err != 0 {
        return;
      }
      err := bus.Command(cmd, mutex.lockCount);
      t := [Transaction(cmd, err, NoData, old(mutex.lockCount) + 1)];
      mutex.Unlock();
    }

    /** `scd4x_sensor_set_temperature_offset`, in milli-degrees Celsius. */
    method SetTemperatureOffset(offset: int32) returns (err: int, ghost t: seq<Transaction>)
      modifies bus, mutex
      ensures bus.log == old(bus.log) + t
      ensures t == [] || t == [Transaction(Scd4xSetTemperatureOffset(offset), err, NoData, old(mutex.lockCount) + 1)]
      ensures t == [] <==> err == -EAGAIN && mutex.acquisitions == old(mutex.acquisitions)
      ensures mutex.lockCount == old(mutex.lockCount)
      ensures mutex.acquisitions == old(mutex.acquisitions) + |t| && mutex.releases == old(mutex.releases) + |t|
    {
      err, t := Configure(Scd4xSetTemperatureOffset(offset));
    }

    /** `scd4x_sensor_set_sensor_altitude`, in metres. */
    method SetSensorAltitude(altitude: int16) returns (err: int, ghost t: seq<Transaction>)
      modifies bus, mutex
      ensures bus.log == old(bus.log) + t
      ensures t == [] || t == [Transaction(Scd4xSetSensorAltitude(altitude), err, NoData, old(mutex.lockCount) + 1)]
      ensures t == [] <==> err == -EAGAIN && mutex.acquisitions == old(mutex.acquisitions)
      ensures mutex.lockCount == old(mutex.lockCount)
      ensures mutex.acquisitions == old(mutex.acquisitions) + |t| && mutex.releases == old(mutex.releases) + |t|
    {
      err, t := Configure(Scd4xSetSensorAltitude(altitude));
    }

    /** `scd4x_sensor_set_automatic_self_calibration`. */
    method SetAutomaticSelfCalibration(enabled: bool) returns (err: int, ghost t: seq<Transaction>)
      modifies bus, mutex
      ensures bus.log == old(bus.log) + t
      ensures t == [] || t == [Transaction(Scd4xSetAutomaticSelfCalibration(enabled), err, NoData, old(mutex.lockCount) + 1)]
      ensures t == [] <==> err == -EAGAIN && mutex.acquisitions == old(mutex.acquisitions)
      ensures mutex.lockCount == old(mutex.lockCount)
      ensures mutex.acquisitions == old(mutex.acquisitions) + |t| && mutex.releases == old(mutex.releases) + |t|
    {
      err, t := Configure(Scd4xSetAutomaticSelfCalibration(enabled));
    }
  }
}
