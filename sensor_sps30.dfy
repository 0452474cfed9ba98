/**
 * The SPS30 particulate-matter sensor behind its own mutex
 * (`sensor_sps30.c`): bring-up with probe retries, reads that average
 * several samples, each taken under the mutex after a bounded data-ready
 * wait, and the two maintenance commands.
 */
module SensorSps30 {
  import opened Stdint
  import opened Zephyr
  import opened SensorBus
  import opened Transcripts

  /** `SPS30_MUTEX_TIMEOUT`: how long every operation waits for the mutex, in milliseconds. */
  const MutexTimeoutMs: nat := 60000
  /** How many probes bring-up tries before giving up. */
  const ProbeTries: nat := 10
  /** How many data-ready queries one sample waits for, 0.1 s apart. */
  const ReadyTries: nat := 100
  /** What a read returns when the data-ready flag never came up. */
  const NotReadyError: int := -1

  /** The calls of bring-up after the probes, up to the first failure. */
  const InitTailCmds: seq<Cmd> := [Sps30ReadFirmwareVersion, Sps30GetSerial, Sps30StartMeasurement]

  // ---------------------------------------------------------------------
  // Averaging (the driver's floats read as reals)
  // ---------------------------------------------------------------------

  const Zero: Pm := Pm(0.0, 0.0, 0.0, 0.0, 0.0, 0.0, 0.0, 0.0, 0.0, 0.0)

  /** Channel-wise sum of two samples. */
  function Add(a: Pm, b: Pm): Pm
  {
    Pm(a.mc1p0 + b.mc1p0, a.mc2p5 + b.mc2p5, a.mc4p0 + b.mc4p0, a.mc10p0 + b.mc10p0,
       a.nc0p5 + b.nc0p5, a.nc1p0 + b.nc1p0, a.nc2p5 + b.nc2p5, a.nc4p0 + b.nc4p0, a.nc10p0 + b.nc10p0,
       a.typicalParticleSize + b.typicalParticleSize)
  }

  /** One channel scaled by `k`. */
  function Mul(x: real, k: real): real
  {
    x * k
  }

  /** One channel divided by the sample count, as the driver divides each float sum. */
  function Div(x: real, n: nat): real
    requires n > 0
  {
    x / (n as real)
  }

  /** Every channel multiplied by `k`. */
  function Times(a: Pm, k: real): Pm
  {
    Pm(Mul(a.mc1p0, k), Mul(a.mc2p5, k), Mul(a.mc4p0, k), Mul(a.mc10p0, k),
       Mul(a.nc0p5, k), Mul(a.nc1p0, k), Mul(a.nc2p5, k), Mul(a.nc4p0, k), Mul(a.nc10p0, k),
       Mul(a.typicalParticleSize, k))
  }

  /** Every channel divided by `n`. */
  function Divide(a: Pm, n: nat): Pm
    requires n > 0
  {
    Pm(Div(a.mc1p0, n), Div(a.mc2p5, n), Div(a.mc4p0, n), Div(a.mc10p0, n),
       Div(a.nc0p5, n), Div(a.nc1p0, n), Div(a.nc2p5, n), Div(a.nc4p0, n), Div(a.nc10p0, n),
       Div(a.typicalParticleSize, n))
  }

  /** The running sums, accumulated in sample order as the read loop does. */
  function Sum(xs: seq<Pm>): Pm
  {
    if xs == [] then Zero else Add(Sum(xs[..|xs| - 1]), xs[|xs| - 1])
  }

  /** The channel-wise arithmetic mean of the samples. */
  function Mean(xs: seq<Pm>): Pm
    requires xs != []
  {
    Divide(Sum(xs), |xs|)
  }

  /** `n` equal samples sum to `n` times that sample. */
  lemma {:induction false} SumOfCopies(xs: seq<Pm>, p: Pm)
    requires forall i :: 0 <= i < |xs| ==> xs[i] == p
    ensures Sum(xs) == Times(p, |xs| as real)
    decreases |xs|
  {
    if xs == [] {
      assert Times(p, 0.0) == Zero;
    } else {
      var n := |xs| - 1;
      assert forall i :: 0 <= i < n ==> xs[..n][i] == p;
      SumOfCopies(xs[..n], p);
      assert Sum(xs) == Add(Times(p, n as real), p);
      OneMore(p, n as real);
    }
  }

  /** Adding one more copy: `k p + p == (k + 1) p`. */
  lemma OneMore(p: Pm, k: real)
    ensures Add(Times(p, k), p) == Times(p, k + 1.0)
  {
    Distribute(p.mc1p0, k); Distribute(p.mc2p5, k); Distribute(p.mc4p0, k); Distribute(p.mc10p0, k);
    Distribute(p.nc0p5, k); Distribute(p.nc1p0, k); Distribute(p.nc2p5, k); Distribute(p.nc4p0, k);
    Distribute(p.nc10p0, k); Distribute(p.typicalParticleSize, k);
  }

  lemma Distribute(x: real, k: real)
    ensures Mul(x, k) + x == Mul(x, k + 1.0)
  {
  }

  lemma Cancel(x: real, n: nat)
    requires n > 0
    ensures Div(Mul(x, n as real), n) == x
  {
  }

  /** Dividing `n` copies by `n` gives the sample back. */
  lemma DivideTimes(p: Pm, n: nat)
    requires n > 0
    ensures Divide(Times(p, n as real), n) == p
  {
    Cancel(p.mc1p0, n); Cancel(p.mc2p5, n); Cancel(p.mc4p0, n); Cancel(p.mc10p0, n);
    Cancel(p.nc0p5, n); Cancel(p.nc1p0, n); Cancel(p.nc2p5, n); Cancel(p.nc4p0, n);
    Cancel(p.nc10p0, n); Cancel(p.typicalParticleSize, n);
  }

  /** Averaging samples that all agree gives that sample back: the mean is a true average. */
  lemma MeanOfConstant(xs: seq<Pm>, p: Pm)
    requires xs != []
    requires forall i :: 0 <= i < |xs| ==> xs[i] == p
    ensures Mean(xs) == p
  {
    SumOfCopies(xs, p);
    DivideTimes(p, |xs|);
  }

  // ---------------------------------------------------------------------
  // Transcripts
  // ---------------------------------------------------------------------

  /**
   * At most `tries` probes, each one issued only because the one before it
   * failed: the run ends at the first success or after `tries` failures.
   */
  predicate ProbedAtMost(p: seq<Transaction>, tries: nat)
  {
    && 1 <= |p| <= tries
    && (forall i :: 0 <= i < |p| ==> p[i].cmd == Sps30Probe)
    && (forall i :: 0 <= i < |p| - 1 ==> p[i].status != 0)
    && (|p| < tries ==> Last(p).status == 0)
  }

  /** What `sps30_sensor_init` did: the lock status, then reset, probes and the rest. */
  datatype InitRun = InitRun(lock: int, reset: seq<Transaction>, probes: seq<Transaction>, rest: seq<Transaction>)
  {
    function All(): seq<Transaction>
    {
      reset + probes + rest
    }

    /** The status of the last step reached. */
    function Status(): int
    {
      if lock != 0 then lock
      else if rest != [] then Last(rest).status
      else if probes != [] then Last(probes).status
      else if reset != [] then Last(reset).status
      else 0
    }
  }

  /** Bring-up, each step reached only when the one before it succeeded, all under the mutex at `depth`. */
  predicate InitShape(r: InitRun, depth: nat)
  {
    && (r.lock != 0 ==> r.reset == [] && r.probes == [] && r.rest == [])
    && (r.lock == 0 ==>
          && |r.reset| == 1 && r.reset[0].cmd == Sps30Reset
          && (r.reset[0].status != 0 ==> r.probes == [] && r.rest == [])
          && (r.reset[0].status == 0 ==>
                && ProbedAtMost(r.probes, ProbeTries)
                && (Last(r.probes).status != 0 ==> r.rest == [])
                && (Last(r.probes).status == 0 ==> StoppedAtFirstFailure(r.rest, InitTailCmds))))
    && AtDepth(r.reset, depth) && AtDepth(r.probes, depth) && AtDepth(r.rest, depth)
  }

  /** What one pass of the sample loop did: the lock status, the data-ready queries, the read. */
  datatype Round = Round(lock: int, polls: seq<Transaction>, read: seq<Transaction>)
  {
    function All(): seq<Transaction>
    {
      polls + read
    }

    /** The data-ready flag came up. */
    predicate Ready()
    {
      polls != [] && Last(polls).status == 0 && Last(polls).reply.DataReady? && Last(polls).reply.ready
    }

    /** What the pass returns: the lock error, the query error, -1 on time-out, or the read's status. */
    function Status(): int
    {
      if lock != 0 then lock
      else if polls != [] && Last(polls).status != 0 then Last(polls).status
      else if !Ready() then NotReadyError
      else if read != [] then read[0].status
      else 0
    }

    /** The sample the pass read. */
    function Sample(): Pm
    {
      if read != [] && read[0].reply.PmSample? then read[0].reply.pm else Zero
    }
  }

  /** One pass: at most `ReadyTries` queries, and a read exactly when the flag came up, all at `depth`. */
  predicate RoundShape(r: Round, depth: nat)
  {
    && (r.lock != 0 ==> r.polls == [] && r.read == [])
    && (r.lock == 0 ==>
          && PolledAtMost(r.polls, Sps30ReadDataReady, ReadyTries)
          && (r.Ready() ==> |r.read| == 1 && r.read[0].cmd == Sps30ReadMeasurement && r.read[0].reply.PmSample?)
          && (!r.Ready() ==> r.read == []))
    && AtDepth(r.polls, depth) && AtDepth(r.read, depth)
  }

  /** Every pass so far had its shape and succeeded, as the read loop requires to go on. */
  predicate AllPassed(rs: seq<Round>, depth: nat)
  {
    rs == [] || (AllPassed(rs[..|rs| - 1], depth) && RoundShape(rs[|rs| - 1], depth) && rs[|rs| - 1].Status() == 0)
  }

  lemma {:induction false} AllPassedEach(rs: seq<Round>, depth: nat)
    requires AllPassed(rs, depth)
    ensures forall i :: 0 <= i < |rs| ==> RoundShape(rs[i], depth) && rs[i].Status() == 0
    decreases |rs|
  {
    if rs != [] {
      var init := rs[..|rs| - 1];
      AllPassedEach(init, depth);
      assert forall i :: 0 <= i < |init| ==> rs[i] == init[i];
    }
  }

  /**
   * A pass that took the mutex gives up, returning -1 without reading, exactly
   * when all 100 data-ready queries succeeded and answered "not ready".
   */
  lemma NotReadyAfterAllTries(r: Round, depth: nat)
    requires RoundShape(r, depth) && r.lock == 0
    ensures Last(r.polls).status == 0 && !r.Ready() <==>
      |r.polls| == ReadyTries && forall i :: 0 <= i < |r.polls| ==> r.polls[i].status == 0 && !r.polls[i].reply.ready
    ensures Last(r.polls).status == 0 && !r.Ready() ==> r.Status() == NotReadyError && r.read == []
  {
  }

  /** The bus traffic of several passes, in order. */
  function Traffic(rs: seq<Round>): seq<Transaction>
  {
    if rs == [] then [] else Traffic(rs[..|rs| - 1]) + rs[|rs| - 1].All()
  }

  /** The samples the passes read, in order. */
  function Samples(rs: seq<Round>): (xs: seq<Pm>)
    ensures |xs| == |rs| && forall i :: 0 <= i < |rs| ==> xs[i] == rs[i].Sample()
  {
    if rs == [] then [] else Samples(rs[..|rs| - 1]) + [rs[|rs| - 1].Sample()]
  }

  /** The running sum the read loop keeps, pass by pass. */
  function RunningSum(rs: seq<Round>): Pm
  {
    if rs == [] then Zero else Add(RunningSum(rs[..|rs| - 1]), rs[|rs| - 1].Sample())
  }

  /** The running sum is the sum of the samples read. */
  lemma {:induction false} RunningSumIsSum(rs: seq<Round>)
    ensures RunningSum(rs) == Sum(Samples(rs))
    decreases |rs|
  {
    if rs != [] {
      var init := rs[..|rs| - 1];
      RunningSumIsSum(init);
      assert Samples(rs)[..|rs| - 1] == Samples(init);
    }
  }

  /** What appending one pass does to the functions the read loop keeps. */
  lemma AppendRound(rs: seq<Round>, r: Round, depth: nat)
    ensures (rs + [r])[..|rs|] == rs
    ensures Traffic(rs + [r]) == Traffic(rs) + r.All()
    ensures RunningSum(rs + [r]) == Add(RunningSum(rs), r.Sample())
    ensures AllPassed(rs + [r], depth) <==> AllPassed(rs, depth) && RoundShape(r, depth) && r.Status() == 0
  {
    assert (rs + [r])[..|rs|] == rs;
  }

  /** The data-ready queries of several passes. */
  function PollCount(rs: seq<Round>): nat
  {
    if rs == [] then 0 else PollCount(rs[..|rs| - 1]) + |rs[|rs| - 1].polls|
  }

  /**
   * A read is bounded: it makes at most `ReadyTries` data-ready queries per
   * pass, so at most 100 per sample asked for.
   */
  lemma {:induction false} PollBudget(rs: seq<Round>, depth: nat)
    requires forall i :: 0 <= i < |rs| ==> RoundShape(rs[i], depth)
    ensures PollCount(rs) <= ReadyTries * |rs|
    decreases |rs|
  {
    if rs != [] {
      PollBudget(rs[..|rs| - 1], depth);
      assert RoundShape(rs[|rs| - 1], depth);
    }
  }

  /**
   * Bring-up succeeded exactly when the mutex was taken and the SPS30
   * accepted the command that starts measuring.
   */
  lemma InitOkIffMeasuring(r: InitRun, depth: nat)
    requires InitShape(r, depth)
    ensures r.Status() == 0 <==> r.lock == 0 && Succeeded(r.All(), Sps30StartMeasurement)
  {
    if r.Status() == 0 {
      assert r.lock == 0 && r.reset[0].status == 0 && Last(r.probes).status == 0;
      assert |r.rest| == 3;
      assert r.All()[|r.All()| - 1] == r.rest[2];
    }
    if r.lock == 0 && Succeeded(r.All(), Sps30StartMeasurement) {
      var i :| 0 <= i < |r.All()| && r.All()[i].cmd == Sps30StartMeasurement && r.All()[i].status == 0;
      var k := |r.reset| + |r.probes|;
      forall j | 0 <= j < k
        ensures r.All()[j].cmd != Sps30StartMeasurement
      {
        if j < |r.reset| {
          assert r.All()[j] == r.reset[j];
        } else {
          assert r.All()[j] == r.probes[j - |r.reset|];
        }
      }
      assert r.All()[i] == r.rest[i - k];
    }
  }

  // ---------------------------------------------------------------------
  // The driver
  // ---------------------------------------------------------------------

  /** The file's state: `sps30_mutex` and the bus the sensor sits on. */
  class Sps30 {
    const bus: Bus
    const mutex: Mutex

    /** `K_MUTEX_DEFINE(sps30_mutex)`. */
    constructor (bus: Bus)
      ensures this.bus == bus && fresh(mutex)
      ensures mutex.lockCount == 0 && mutex.acquisitions == 0 && mutex.releases == 0
    {
      this.bus := bus;
      mutex := new Mutex();
    }

    /**
     * `sps30_sensor_init`: take the mutex, bring the sensor up, release the
     * mutex. Every exit of the C function after the lock releases it, so the
     * steps between are `BringUp`.
     */
    method Init() returns (err: int, ghost r: InitRun)
      modifies bus, mutex
      ensures bus.log == old(bus.log) + r.All()
      ensures InitShape(r, old(mutex.lockCount) + 1)
      ensures err == r.Status()
      ensures r.lock != 0 ==> r.lock == -EAGAIN
      ensures mutex.lockCount == old(mutex.lockCount)
      ensures mutex.acquisitions == old(mutex.acquisitions) + (if r.lock == 0 then 1 else 0)
      ensures mutex.releases == old(mutex.releases) + (if r.lock == 0 then 1 else 0)
    {
      err := mutex.Lock(Millis(MutexTimeoutMs));
      if err != 0 {
        r := InitRun(err, [], [], []);
        return;
      }
      ghost var reset, probes, rest;
      err, reset, probes, rest := BringUp();
      mutex.Unlock();
      r := InitRun(0, reset, probes, rest);
    }

    /**
     * The steps of `sps30_sensor_init` under the mutex: reset, probe up to
     * ten times until one succeeds, read the firmware version and the serial
     * number, start measuring; each reached only if the one before it
     * succeeded.
     */
    method BringUp() returns (err: int, ghost reset: seq<Transaction>, ghost probes: seq<Transaction>, ghost rest: seq<Transaction>)
      modifies bus
      ensures bus.log == old(bus.log) + reset + probes + rest
      ensures InitShape(InitRun(0, reset, probes, rest), mutex.lockCount)
      ensures err == InitRun(0, reset, probes, rest).Status()
    {
      probes, rest := [], [];
      err := bus.Command(Sps30Reset, mutex.lockCount);
      reset := [Transaction(Sps30Reset, err, NoData, mutex.lockCount)];
      if err != 0 {
        return;
      }
      err, probes := Probe();
      if err != 0 {
        return;
      }
      err, rest := Identify();
    }

    /** The probe loop of `sps30_sensor_init`: up to ten probes, stopping at the first that succeeds. */
    method Probe() returns (err: int, ghost probes: seq<Transaction>)
      modifies bus
      ensures bus.log == old(bus.log) + probes
      ensures ProbedAtMost(probes, ProbeTries) && AtDepth(probes, mutex.lockCount)
      ensures err == Last(probes).status
    {
      probes := [];
      err := 0;
      var tries := ProbeTries;
      while tries != 0
        invariant 0 <= tries <= ProbeTries && |probes| == ProbeTries - tries
        invariant forall i :: 0 <= i < |probes| ==> probes[i].cmd == Sps30Probe && probes[i].status != 0
        invariant AtDepth(probes, mutex.lockCount)
        invariant probes != [] ==> err == Last(probes).status
        invariant bus.log == old(bus.log) + probes
      {
        err := bus.Command(Sps30Probe, mutex.lockCount);
        probes := probes + [Transaction(Sps30Probe, err, NoData, mutex.lockCount)];
        if err == 0 {
          return;
        }
        tries := tries - 1;
      }
    }

    /**
     * The tail of `sps30_sensor_init`: read the firmware version, read the
     * serial number, start measuring, stopping at the first failure.
     */
    method Identify() returns (err: int, ghost rest: seq<Transaction>)
      modifies bus
      ensures bus.log == old(bus.log) + rest
      ensures StoppedAtFirstFailure(rest, InitTailCmds) && AtDepth(rest, mutex.lockCount)
      ensures err == Last(rest).status
    {
      err := bus.Command(Sps30ReadFirmwareVersion, mutex.lockCount);
      NextStep([], InitTailCmds, Transaction(Sps30ReadFirmwareVersion, err, NoData, mutex.lockCount), mutex.lockCount);
      rest := [Transaction(Sps30ReadFirmwareVersion, err, NoData, mutex.lockCount)];
      assert bus.log == old(bus.log) + rest;
      if err != 0 {
        return;
      }
      err := bus.Command(Sps30GetSerial, mutex.lockCount);
      NextStep(rest, InitTailCmds, Transaction(Sps30GetSerial, err, NoData, mutex.lockCount), mutex.lockCount);
      rest := rest + [Transaction(Sps30GetSerial, err, NoData, mutex.lockCount)];
      assert bus.log == old(bus.log) + rest;
      if err != 0 {
        return;
      }
      err := bus.Command(Sps30StartMeasurement, mutex.lockCount);
      NextStep(rest, InitTailCmds, Transaction(Sps30StartMeasurement, err, NoData, mutex.lockCount), mutex.lockCount);
      rest := rest + [Transaction(Sps30StartMeasurement, err, NoData, mutex.lockCount)];
    }

    /**
     * One pass of the sample loop of `sps30_sensor_read`: take the mutex,
     * query the data-ready flag up to 100 times, read one sample, release
     * the mutex. Every exit after the lock releases it.
     */
    method Sample() returns (err: int, pm: Pm, ghost r: Round)
      modifies bus, mutex
      ensures bus.log == old(bus.log) + r.All()
      ensures RoundShape(r, old(mutex.lockCount) + 1)
      ensures err == r.Status()
      ensures err == 0 ==> pm == r.Sample()
      ensures mutex.lockCount == old(mutex.lockCount)
      ensures mutex.acquisitions == old(mutex.acquisitions) + (if r.lock == 0 then 1 else 0)
      ensures mutex.releases == old(mutex.releases) + (if r.lock == 0 then 1 else 0)
    {
      pm := Zero;
      err := mutex.Lock(Millis(MutexTimeoutMs));
      r := Round(err, [], []);
      if err != 0 {
        return;
      }
      ghost var depth := mutex.lockCount;
      var tries := ReadyTries;
      var ready := false;
      ghost var polls: seq<Transaction> := [];
      while tries > 0
        invariant 0 <= tries <= ReadyTries && |polls| == ReadyTries - tries
        invariant forall i :: 0 <= i < |polls| ==>
          polls[i].cmd == Sps30ReadDataReady && polls[i].reply == DataReady(false) && polls[i].status == 0
        invariant AtDepth(polls, depth)
        invariant bus.log == old(bus.log) + polls
        invariant mutex.lockCount == depth && mutex.acquisitions == old(mutex.acquisitions) + 1
        invariant mutex.releases == old(mutex.releases)
      {
        var s;
        s, ready := bus.Sps30DataReady(mutex.lockCount);
        polls := polls + [Transaction(Sps30ReadDataReady, s, DataReady(ready), depth)];
        if s != 0 {
          mutex.Unlock();
          return s, pm, Round(0, polls, []);
        }
        if ready {
          break;
        }
        tries := tries - 1;
      }
      if tries == 0 {
        mutex.Unlock();
        return NotReadyError, pm, Round(0, polls, []);
      }
      var sample;
      err, sample := bus.Sps30Measurement(mutex.lockCount);
      r := Round(0, polls, [Transaction(Sps30ReadMeasurement, err, PmSample(sample), depth)]);
      assert r.Ready();
      mutex.Unlock();
      if err != 0 {
        return;
      }
      pm := sample;
    }

    /** One pass of the read loop, added to the passes so far and, when it succeeded, to the running sum. */
    method Accumulate(sum: Pm, ghost rs: seq<Round>) returns (err: int, sum': Pm, ghost rs': seq<Round>)
      requires AllPassed(rs, mutex.lockCount + 1) && sum == RunningSum(rs)
      modifies bus, mutex
      ensures |rs'| == |rs| + 1 && rs'[..|rs|] == rs
      ensures bus.log == old(bus.log) + rs'[|rs|].All() && Traffic(rs') == Traffic(rs) + rs'[|rs|].All()
      ensures RoundShape(rs'[|rs|], old(mutex.lockCount) + 1) && err == rs'[|rs|].Status()
      ensures err == 0 ==> AllPassed(rs', old(mutex.lockCount) + 1) && sum' == RunningSum(rs')
      ensures mutex.lockCount == old(mutex.lockCount)
      ensures mutex.acquisitions - old(mutex.acquisitions) == mutex.releases - old(mutex.releases) <= 1
    {
      var pm;
      ghost var r;
      err, pm, r := Sample();
      AppendRound(rs, r, old(mutex.lockCount) + 1);
      rs' := rs + [r];
      sum' := Add(sum, pm);
    }

    /**
     * `sps30_sensor_read`: take `samples` samples one after the other and
     * write their channel-wise mean, returning at the first failed pass
     * without writing anything. `samples` is what
     * `get_sps30_samples_per_measurement_s` returns.
     */
    method Read(prev: Pm, samples: uint32) returns (err: int, m: Pm, ghost rounds: seq<Round>)
      requires samples >= 1
      modifies bus, mutex
      ensures bus.log == old(bus.log) + Traffic(rounds)
      ensures 1 <= |rounds| <= samples
      ensures AllPassed(rounds[..|rounds| - 1], old(mutex.lockCount) + 1) && RoundShape(rounds[|rounds| - 1], old(mutex.lockCount) + 1)
      ensures err == rounds[|rounds| - 1].Status()
      ensures err == 0 ==> |rounds| == samples && m == Mean(Samples(rounds))
      ensures err != 0 ==> m == prev
      ensures mutex.lockCount == old(mutex.lockCount)
      ensures mutex.acquisitions - old(mutex.acquisitions) == mutex.releases - old(mutex.releases) <= |rounds|
    {
      ghost var depth := mutex.lockCount + 1;
      var sum := Zero;
      var count := 0;
      rounds := [];
      err := 0;
      while count < samples
        invariant 0 <= count <= samples && |rounds| == count
        invariant AllPassed(rounds, depth)
        invariant sum == RunningSum(rounds)
        invariant bus.log == old(bus.log) + Traffic(rounds)
        invariant count > 0 ==> err == 0
        invariant mutex.lockCount == old(mutex.lockCount)
        invariant mutex.acquisitions - old(mutex.acquisitions) == mutex.releases - old(mutex.releases) <= |rounds|
      {
        err, sum, rounds := Accumulate(sum, rounds);
        if err != 0 {
          return err, prev, rounds;
        }
        count := count + 1;
      }
      RunningSumIsSum(rounds);
      m := Divide(sum, samples);
    }

    /** `sps30_sensor_set_fan_auto_cleaning_interval`: one command under the mutex. */
    method SetFanAutoCleaningInterval(seconds: uint32) returns (err: int, ghost t: seq<Transaction>)
      modifies bus, mutex
      ensures bus.log == old(bus.log) + t
      ensures t == [] || t == [Transaction(Sps30SetFanAutoCleaningInterval(seconds), err, NoData, old(mutex.lockCount) + 1)]
      ensures t == [] <==> err == -EAGAIN && mutex.acquisitions == old(mutex.acquisitions)
      ensures mutex.lockCount == old(mutex.lockCount)
      ensures mutex.acquisitions == old(mutex.acquisitions) + |t| && mutex.releases == old(mutex.releases) + |t|
    {
      t := [];
      err := mutex.Lock(Millis(MutexTimeoutMs));
      if err != 0 {
        return;
      }
      err := bus.Command(Sps30SetFanAutoCleaningInterval(seconds), mutex.lockCount);
      t := [Transaction(Sps30SetFanAutoCleaningInterval(seconds), err, NoData, old(mutex.lockCount) + 1)];
      mutex.Unlock();
    }

    /** `sps30_sensor_clean_fan`: start manual fan cleaning under the mutex. */
    method CleanFan() returns (err: int, ghost t: seq<Transaction>)
      modifies bus, mutex
      ensures bus.log == old(bus.log) + t
      ensures t == [] || t == [Transaction(Sps30StartManualFanCleaning, err, NoData, old(mutex.lockCount) + 1)]
      ensures t == [] <==> err == -EAGAIN && mutex.acquisitions == old(mutex.acquisitions)
      ensures mutex.lockCount == old(mutex.lockCount)
      ensures mutex.acquisitions == old(mutex.acquisitions) + |t| && mutex.releases == old(mutex.releases) + |t|
    {
      t := [];
      err := mutex.Lock(Millis(MutexTimeoutMs));
      if err != 0 {
        return;
      }
      err := bus.Command(Sps30StartManualFanCleaning, mutex.lockCount);
      t := [Transaction(Sps30StartManualFanCleaning, err, NoData, old(mutex.lockCount) + 1)];
      mutex.Unlock();
    }
  }
}
