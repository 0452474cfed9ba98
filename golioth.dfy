/**
 * The Golioth cloud client, as the firmware sees it: a connection flag and
 * a series of requests (LightDB Stream pushes, LightDB State writes and
 * observations), each answered with a status the firmware cannot predict.
 * The payload type `P` is what the caller formats into JSON; the formatting
 * itself is not modelled.
 */
module Golioth {
  datatype Request<P> =
    | StreamPush(path: string, payload: P)
    | LightdbSet(path: string, payload: P)
    | LightdbObserve(path: string)

  datatype Call<P> = Call(request: Request<P>, status: int)

  /** `struct golioth_client`. */
  class Client<P> {
    var calls: seq<Call<P>>
    var connected: bool

    constructor (connected: bool)
      ensures calls == [] && this.connected == connected
    {
      calls := [];
      this.connected := connected;
    }

    /** `golioth_client_is_connected`. */
    method IsConnected() returns (c: bool)
      ensures c == connected
    {
      c := connected;
    }

    /** Hands a request to the client; the returned status is the client's. */
    method Send(request: Request<P>) returns (status: int)
      modifies this
      ensures calls == old(calls) + [Call(request, status)]
      ensures connected == old(connected)
    {
      status := *;
      calls := calls + [Call(request, status)];
    }
  }
}
