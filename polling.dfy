/**
 * The unbounded data-ready wait that the SCD4x reads and the older SPS30
 * read share: query the device until it answers "ready" or a query fails.
 */
module Polling {
  import opened SensorBus
  import opened Transcripts

  /**
   * `while (!data_ready_flag) { err = <query>(&data_ready_flag); if (err) return err; }`
   * on the SCD4x (`Scd4xGetDataReadyFlag`) or the SPS30 (`Sps30ReadDataReady`),
   * issued with the device's mutex held `depth` times.
   */
  method AwaitReady(bus: Bus, depth: nat, query: Cmd) returns (status: int, ghost polls: seq<Transaction>)
    requires query == Scd4xGetDataReadyFlag || query == Sps30ReadDataReady
    modifies bus
    ensures bus.log == old(bus.log) + polls
    ensures PolledUntilReady(polls, query)
    ensures AtDepth(polls, depth)
    ensures status == Last(polls).status
    ensures query == Scd4xGetDataReadyFlag ==> bus.sps30PollsUntilReady == old(bus.sps30PollsUntilReady)
    ensures query == Sps30ReadDataReady ==> bus.scd4xPollsUntilReady == old(bus.scd4xPollsUntilReady)
  {
    polls := [];
    var ready := false;
    while !ready
      invariant bus.log == old(bus.log) + polls
      invariant forall i :: 0 <= i < |polls| ==>
        polls[i].cmd == query && polls[i].reply.DataReady? && polls[i].status == 0 && polls[i].lockDepth == depth
      invariant forall i :: 0 <= i < |polls| - 1 ==> !polls[i].reply.ready
      invariant ready <==> polls != [] && Last(polls).reply.ready
      invariant query == Scd4xGetDataReadyFlag ==> bus.sps30PollsUntilReady == old(bus.sps30PollsUntilReady)
      invariant query == Sps30ReadDataReady ==> bus.scd4xPollsUntilReady == old(bus.scd4xPollsUntilReady)
      decreases (if query == Scd4xGetDataReadyFlag then bus.scd4xPollsUntilReady else bus.sps30PollsUntilReady)
                + (if ready then 0 else 1)
    {
      var s, r;
      if query == Scd4xGetDataReadyFlag {
        s, r := bus.Scd4xDataReady(depth);
      } else {
        s, r := bus.Sps30DataReady(depth);
      }
      polls := polls + [Transaction(query, s, DataReady(r), depth)];
      if s != 0 {
        return s, polls;
      }
      ready := r;
    }
    status := 0;
  }

  /**
   * The tail of an SPS30 measurement once the data is ready: read the
   * sample, then stop measurement if the read succeeded. The sample is
   * handed back as soon as the read succeeds, whatever stopping returns.
   */
  method ReadPmAndStop(bus: Bus, depth: nat, prev: Pm) returns (status: int, m: Pm, ghost rest: seq<Transaction>)
    modifies bus
    ensures bus.log == old(bus.log) + rest
    ensures StoppedAtFirstFailure(rest, [Sps30ReadMeasurement] + [Sps30StopMeasurement]) && AtDepth(rest, depth)
    ensures rest[0].reply.PmSample?
    ensures status == Last(rest).status
    ensures m == if rest[0].status == 0 then rest[0].reply.pm else prev
    ensures bus.scd4xPollsUntilReady == old(bus.scd4xPollsUntilReady)
  {
    var sample: Pm;
    status, sample := bus.Sps30Measurement(depth);
    ghost var read := Transaction(Sps30ReadMeasurement, status, PmSample(sample), depth);
    if status != 0 {
      return status, prev, [read];
    }
    m := sample;
    status := bus.Command(Sps30StopMeasurement, depth);
    rest := [read, Transaction(Sps30StopMeasurement, status, NoData, depth)];
  }
}
