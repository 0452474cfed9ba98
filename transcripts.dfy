/**
 * Shapes of the transaction sequences that the sensor operations issue on
 * the bus. Each operation's contract says which shape the transactions it
 * issued have; the shapes are stated here once, independently of the code
 * that issues them.
 */
module Transcripts {
  import opened SensorBus
  import opened Wrappers

  function Last(t: seq<Transaction>): Transaction
    requires t != []
  {
    t[|t| - 1]
  }

  /** Every transaction was issued while the device's guard was held `depth` times. */
  predicate AtDepth(t: seq<Transaction>, depth: nat)
  {
    forall i :: 0 <= i < |t| ==> t[i].lockDepth == depth
  }

  /** Every transaction was issued under the guard. */
  predicate Guarded(t: seq<Transaction>)
  {
    forall i :: 0 <= i < |t| ==> t[i].lockDepth > 0
  }

  /** The number of leading transactions that issue `cmd`. */
  function RunLength(t: seq<Transaction>, cmd: Cmd): (k: nat)
    ensures k <= |t|
    ensures forall i :: 0 <= i < k ==> t[i].cmd == cmd
    ensures k < |t| ==> t[k].cmd != cmd
  {
    if t == [] || t[0].cmd != cmd then 0 else 1 + RunLength(t[1..], cmd)
  }

  /**
   * A straight-line sequence of driver calls that returns at the first
   * failing one: the calls made are a non-empty prefix of `cmds`, every one
   * but the last succeeded, and the sequence stopped early only because the
   * last one failed.
   */
  predicate StoppedAtFirstFailure(t: seq<Transaction>, cmds: seq<Cmd>)
  {
    && 1 <= |t| <= |cmds|
    && (forall i :: 0 <= i < |t| ==> t[i].cmd == cmds[i])
    && (forall i :: 0 <= i < |t| - 1 ==> t[i].status == 0)
    && (|t| < |cmds| ==> Last(t).status != 0)
  }

  /**
   * A data-ready wait with no bound on the number of queries: queries that
   * answered "not ready", then one that answered "ready" or failed.
   */
  predicate PolledUntilReady(p: seq<Transaction>, query: Cmd)
  {
    && |p| >= 1
    && (forall i :: 0 <= i < |p| ==> p[i].cmd == query && p[i].reply.DataReady?)
    && (forall i :: 0 <= i < |p| - 1 ==> p[i].status == 0 && !p[i].reply.ready)
    && (Last(p).status != 0 || Last(p).reply.ready)
  }

  /**
   * A data-ready wait of at most `bound` queries: as above, except that it
   * also ends, without an answer, once `bound` queries said "not ready".
   */
  predicate PolledAtMost(p: seq<Transaction>, query: Cmd, bound: nat)
  {
    && 1 <= |p| <= bound
    && (forall i :: 0 <= i < |p| ==> p[i].cmd == query && p[i].reply.DataReady?)
    && (forall i :: 0 <= i < |p| - 1 ==> p[i].status == 0 && !p[i].reply.ready)
    && (|p| < bound ==> Last(p).status != 0 || Last(p).reply.ready)
  }

  /** The wait ended because the device never answered "ready". */
  predicate TimedOut(p: seq<Transaction>)
    requires p != [] && Last(p).reply.DataReady?
  {
    Last(p).status == 0 && !Last(p).reply.ready
  }

  /**
   * One measurement: `start`, a data-ready wait with `query`, then `read`
   * followed by the calls `after`, each phase reached only when the one
   * before it succeeded.
   */
  predicate SingleMeasurement(t: seq<Transaction>, start: Cmd, query: Cmd, read: Cmd, after: seq<Cmd>)
  {
    && |t| >= 1
    && t[0].cmd == start
    && (t[0].status != 0 ==> |t| == 1)
    && (t[0].status == 0 ==>
          var k := RunLength(t[1..], query);
          && PolledUntilReady(t[1..1 + k], query)
          && (Last(t[1..1 + k]).status != 0 ==> |t| == 1 + k)
          && (Last(t[1..1 + k]).status == 0 ==> StoppedAtFirstFailure(t[1 + k..], [read] + after)))
  }

  /** A run of `cmd` transactions followed by anything: the run length counts exactly that run. */
  lemma {:induction false} RunLengthOfPrefix(p: seq<Transaction>, rest: seq<Transaction>, cmd: Cmd)
    requires forall i :: 0 <= i < |p| ==> p[i].cmd == cmd
    requires rest != [] ==> rest[0].cmd != cmd
    ensures RunLength(p + rest, cmd) == |p|
  {
    if p != [] {
      assert (p + rest)[1..] == p[1..] + rest;
      RunLengthOfPrefix(p[1..], rest, cmd);
    } else {
      assert p + rest == rest;
    }
  }

  /** The status of the last call of a straight-line sequence is 0 exactly when all of `cmds` ran and succeeded. */
  lemma {:induction false} StoppedAtFirstFailureOutcome(t: seq<Transaction>, cmds: seq<Cmd>)
    requires StoppedAtFirstFailure(t, cmds)
    ensures Last(t).status == 0 <==> |t| == |cmds| && forall i :: 0 <= i < |t| ==> t[i].status == 0
  {
  }

  /** The commands of `t`, in order. */
  function Commands(t: seq<Transaction>): (cmds: seq<Cmd>)
    ensures |cmds| == |t| && forall i :: 0 <= i < |t| ==> cmds[i] == t[i].cmd
  {
    if t == [] then [] else Commands(t[..|t| - 1]) + [Last(t).cmd]
  }

  /** A run of driver calls ended with status 0. */
  predicate Ok(t: seq<Transaction>)
  {
    t != [] && Last(t).status == 0
  }

  /** Some transaction of `t` issued `cmd` and succeeded. */
  predicate Succeeded(t: seq<Transaction>, cmd: Cmd)
  {
    exists i :: 0 <= i < |t| && t[i].cmd == cmd && t[i].status == 0
  }

  /** Bringing up the SCD4x: wake it, stop periodic measurement, reinitialise, read the serial number. */
  const Scd4xInitCmds: seq<Cmd> := [Scd4xWakeUp, Scd4xStopPeriodicMeasurement, Scd4xReinit, Scd4xGetSerialNumber]

  /** Bringing up the SPS30 without probe retries. */
  const Sps30InitCmds: seq<Cmd> := [Sps30Reset, Sps30Probe, Sps30ReadFirmwareVersion, Sps30GetSerial]

  /** A manual fan cleaning that enters and leaves measurement mode around it. */
  const CleanFanCmds: seq<Cmd> := [Sps30StartMeasurement, Sps30StartManualFanCleaning, Sps30StopMeasurement]

  /**
   * One measurement cut into its phases: the command that starts it, the
   * data-ready wait, and the read with the calls after it.
   */
  datatype Phases = Phases(start: Transaction, wait: seq<Transaction>, rest: seq<Transaction>)
  {
    function All(): seq<Transaction>
    {
      [start] + wait + rest
    }

    /** The status of the last call made, which is what the operation returns. */
    function Status(): int
    {
      if rest != [] then Last(rest).status else if wait != [] then Last(wait).status else start.status
    }

    /**
     * Each phase is reached only when the one before it succeeded: the
     * wait has no bound on its queries, and the read and the calls `after`
     * it stop at the first failure.
     */
    predicate Unbounded(startCmd: Cmd, query: Cmd, read: Cmd, after: seq<Cmd>)
    {
      && start.cmd == startCmd
      && (start.status != 0 ==> wait == [] && rest == [])
      && (start.status == 0 ==>
            && PolledUntilReady(wait, query)
            && (Last(wait).status != 0 ==> rest == [])
            && (Last(wait).status == 0 ==> StoppedAtFirstFailure(rest, [read] + after)))
    }

    predicate AllAtDepth(depth: nat)
    {
      start.lockDepth == depth && AtDepth(wait, depth) && AtDepth(rest, depth)
    }

    /** The read was reached and succeeded. */
    predicate ReadOk()
    {
      rest != [] && rest[0].status == 0
    }
  }

  /** The SCD4x read succeeded with a non-zero sample, the only case in which the output is written. */
  predicate Co2Written(p: Phases)
  {
    p.ReadOk() && p.rest[0].reply.Co2Sample? && p.rest[0].reply.co2 != 0
  }

  /** The sample of an SPS30 measurement whose read succeeded. */
  function PmSampleOf(p: Phases): Option<Pm>
  {
    if p.ReadOk() && p.rest[0].reply.PmSample? then Some(p.rest[0].reply.pm) else None
  }

  /**
   * An SPS30 read returns 0 exactly when all four phases succeeded, and it
   * returns an error after a successful read exactly when stopping
   * measurement failed: the one case in which the output is written and an
   * error is returned.
   */
  lemma PmReadOutcome(p: Phases)
    requires p.Unbounded(Sps30StartMeasurement, Sps30ReadDataReady, Sps30ReadMeasurement, [Sps30StopMeasurement])
    ensures p.Status() == 0 <==> p.ReadOk() && |p.rest| == 2 && p.rest[1].status == 0
    ensures p.ReadOk() && p.Status() != 0 <==> |p.rest| == 2 && p.rest[1].cmd == Sps30StopMeasurement && p.rest[1].status != 0
  {
    if p.start.status == 0 && Last(p.wait).status == 0 {
      assert p.rest != [];
    }
  }

  /**
   * SCD4x bring-up with the throw-away read taken after the set-up calls'
   * lock was released: the four set-up calls up to the first failure, then,
   * if all succeeded, one read, every call at the same lock depth.
   */
  predicate Scd4xInitShape(steps: seq<Transaction>, throwaway: Option<Phases>, depth: nat)
  {
    && StoppedAtFirstFailure(steps, Scd4xInitCmds) && AtDepth(steps, depth)
    && (throwaway.Some? <==> Ok(steps))
    && (throwaway.Some? ==>
          && throwaway.value.Unbounded(Scd4xMeasureSingleShot, Scd4xGetDataReadyFlag, Scd4xReadMeasurement, [])
          && throwaway.value.AllAtDepth(depth))
  }

  /**
   * Such a bring-up returns 0 exactly when all four set-up calls succeeded
   * and the throw-away read returned 0.
   */
  lemma Scd4xInitOkIff(steps: seq<Transaction>, throwaway: Option<Phases>, depth: nat)
    requires Scd4xInitShape(steps, throwaway, depth)
    ensures (if throwaway.Some? then throwaway.value.Status() else Last(steps).status) == 0 <==>
      && |steps| == |Scd4xInitCmds| && (forall i :: 0 <= i < |steps| ==> steps[i].status == 0)
      && throwaway.Some? && throwaway.value.Status() == 0
  {
    StoppedAtFirstFailureOutcome(steps, Scd4xInitCmds);
  }

  /** The transactions of a measurement that may not have been reached. */
  function Flat(o: Option<Phases>): seq<Transaction>
  {
    if o.Some? then o.value.All() else []
  }

  /**
   * The phases agree with the flat reading of the transactions: a measurement
   * cut into phases is a `SingleMeasurement` of its transactions.
   */
  lemma {:induction false} PhasesAreSingleMeasurement(p: Phases, query: Cmd, read: Cmd, after: seq<Cmd>)
    requires read != query
    requires p.Unbounded(p.start.cmd, query, read, after)
    ensures SingleMeasurement(p.All(), p.start.cmd, query, read, after)
  {
    if p.start.status == 0 {
      var t, k := p.All(), |p.wait|;
      assert t[1..] == p.wait + p.rest;
      if p.rest != [] {
        assert p.rest[0].cmd == ([read] + after)[0];
      }
      RunLengthOfPrefix(p.wait, p.rest, query);
      assert t[1..1 + k] == p.wait;
      assert t[1 + k..] == p.rest;
    }
  }

  /** What a measurement returns is the status of the last call it made. */
  lemma StatusIsLastCall(p: Phases)
    ensures p.Status() == Last(p.All()).status
  {
    if p.rest == [] {
      assert p.All() == [p.start] + p.wait;
    }
  }

  lemma CommandsAppend(t: seq<Transaction>, x: Transaction)
    ensures Commands(t + [x]) == Commands(t) + [x.cmd]
  {
  }

  /** A transaction appended to `t` adds to what succeeded in `t` only its own command. */
  lemma SucceededAppend(t: seq<Transaction>, x: Transaction, cmd: Cmd)
    ensures Succeeded(t + [x], cmd) <==> Succeeded(t, cmd) || (x.cmd == cmd && x.status == 0)
  {
    if Succeeded(t, cmd) {
      var i :| 0 <= i < |t| && t[i].cmd == cmd && t[i].status == 0;
      assert (t + [x])[i] == t[i];
    }
    if x.cmd == cmd && x.status == 0 {
      assert (t + [x])[|t|] == x;
    }
    if Succeeded(t + [x], cmd) && !(x.cmd == cmd && x.status == 0) {
      var i :| 0 <= i < |t + [x]| && (t + [x])[i].cmd == cmd && (t + [x])[i].status == 0;
      assert i < |t| && t[i] == (t + [x])[i];
    }
  }

  /** The commands of two runs one after the other. */
  lemma {:induction false} CommandsConcat(a: seq<Transaction>, b: seq<Transaction>)
    ensures Commands(a + b) == Commands(a) + Commands(b)
    decreases |b|
  {
    if b == [] {
      assert a + b == a;
    } else {
      var b' := b[..|b| - 1];
      assert a + b == (a + b') + [Last(b)];
      CommandsAppend(a + b', Last(b));
      CommandsConcat(a, b');
      CommandsAppend(b', Last(b));
      assert b == b' + [Last(b)];
    }
  }

  /** A command succeeded in two runs one after the other exactly when it succeeded in one of them. */
  lemma {:induction false} SucceededConcat(a: seq<Transaction>, b: seq<Transaction>, cmd: Cmd)
    ensures Succeeded(a + b, cmd) <==> Succeeded(a, cmd) || Succeeded(b, cmd)
    decreases |b|
  {
    if b == [] {
      assert a + b == a;
    } else {
      var b' := b[..|b| - 1];
      assert a + b == (a + b') + [Last(b)];
      assert b == b' + [Last(b)];
      SucceededAppend(a + b', Last(b), cmd);
      SucceededAppend(b', Last(b), cmd);
      SucceededConcat(a, b', cmd);
    }
  }

  /** The first `|t|` commands of a set-up sequence, each of which returned 0. */
  predicate OkPrefix(t: seq<Transaction>, cmds: seq<Cmd>)
  {
    |t| <= |cmds| && forall i :: 0 <= i < |t| ==> t[i].cmd == cmds[i] && t[i].status == 0
  }

  /**
   * Issuing the next command of a set-up sequence after a successful
   * prefix: the run goes on if it returned 0, and is complete if it failed
   * or was the last.
   */
  lemma NextStep(t: seq<Transaction>, cmds: seq<Cmd>, x: Transaction, depth: nat)
    requires OkPrefix(t, cmds) && AtDepth(t, depth)
    requires |t| < |cmds| && x.cmd == cmds[|t|] && x.lockDepth == depth
    ensures AtDepth(t + [x], depth)
    ensures x.status == 0 ==> OkPrefix(t + [x], cmds)
    ensures x.status != 0 || |t| + 1 == |cmds| ==> StoppedAtFirstFailure(t + [x], cmds)
    ensures Ok(t + [x]) <==> x.status == 0
  {
  }

  lemma AtDepthConcat(a: seq<Transaction>, b: seq<Transaction>, depth: nat)
    ensures AtDepth(a + b, depth) <==> AtDepth(a, depth) && AtDepth(b, depth)
  {
    if AtDepth(a + b, depth) {
      forall i | 0 <= i < |a|
        ensures a[i].lockDepth == depth
      {
        assert a[i] == (a + b)[i];
      }
      forall i | 0 <= i < |b|
        ensures b[i].lockDepth == depth
      {
        assert b[i] == (a + b)[|a| + i];
      }
    }
  }
}
