/**
 * The device's LightDB State (`app_state.c`): the `warning_indicator`
 * value, the handler for the desired state the cloud sends, which applies,
 * ignores or rejects the requested value, and the one-shot report of the
 * actual state when the client first connects.
 */
module AppState {
  import opened Stdint
  import opened Zephyr
  import opened Golioth

  /**
   * `APP_STATE_DESIRED_ENDP` and `APP_STATE_ACTUAL_ENDP`. Their strings are
   * defined outside the modelled files; the model only needs them distinct.
   */
  const DesiredEndpoint: string := "desired"
  const ActualEndpoint: string := "actual"

  /** The `warning_indicator` written into `{"warning_indicator":%d}`. */
  type StatePayload = int

  /** `reset_desired_state`: write -1, "no change requested", to the desired endpoint. */
  const ResetDesired: Request<StatePayload> := LightdbSet(DesiredEndpoint, -1)

  /** `app_state_update_actual`: write the current indicator to the actual endpoint. */
  function ReportActual(indicator: uint32): Request<StatePayload>
  {
    LightdbSet(ActualEndpoint, indicator)
  }

  /** What a desired `warning_indicator` asks for. */
  datatype Verdict =
    | Apply    // 0 or 1: store it
    | Ignore   // -1: no change requested
    | Reject   // anything else: invalid, but acknowledged

  function Classify(w: int32): Verdict
  {
    if w == 0 || w == 1 then Apply else if w == -1 then Ignore else Reject
  }

  /**
   * One delivery to the desired-state handler: the response status, the
   * return of `json_obj_parse` (negative on a parse failure, else the bit
   * set of decoded fields, bit 0 being `warning_indicator`) and the decoded
   * value.
   */
  datatype Delivery = Delivery(err: int, ret: int, warning: int32)
  {
    /** The JSON was parsed and carried `warning_indicator`. */
    predicate Decoded()
    {
      err == 0 && ret >= 0 && ret % 2 == 1
    }
  }

  /** What the handler does: the status it returns, the indicator it leaves, the requests it sends. */
  datatype Handling = Handling(status: int, indicator: uint32, requests: seq<Request<StatePayload>>)

  /**
   * The desired-state handler's behaviour, stated per case: a response
   * error is returned and nothing else happens; a parse failure resets the
   * desired state; an applied value changes the indicator, is reported as
   * the actual state and then acknowledged; a rejected value is only
   * acknowledged; an ignored value or a document without the field does
   * nothing.
   */
  function Expected(d: Delivery, indicator: uint32): (h: Handling)
    ensures d.err != 0 ==> h == Handling(d.err, indicator, [])
    ensures d.err == 0 ==> h.status == 0
    ensures h.indicator != indicator ==> d.Decoded() && Classify(d.warning) == Apply && h.indicator == d.warning
    ensures ReportActual(h.indicator) in h.requests <==> d.Decoded() && Classify(d.warning) == Apply
    ensures ResetDesired in h.requests <==> d.err == 0 && (d.ret < 0 || (d.Decoded() && Classify(d.warning) != Ignore))
  {
    if d.err != 0 then Handling(d.err, indicator, [])
    else if d.ret < 0 then Handling(0, indicator, [ResetDesired])
    else if d.ret % 2 == 0 then Handling(0, indicator, [])
    else match Classify(d.warning)
      case Apply => Handling(0, d.warning, [ReportActual(d.warning), ResetDesired])
      case Ignore => Handling(0, indicator, [])
      case Reject => Handling(0, indicator, [ResetDesired])
  }

  /** The requests of a series of client calls. */
  function Requests<P>(calls: seq<Call<P>>): (r: seq<Request<P>>)
    ensures |r| == |calls| && forall i :: 0 <= i < |calls| ==> r[i] == calls[i].request
  {
    if calls == [] then [] else Requests(calls[..|calls| - 1]) + [calls[|calls| - 1].request]
  }

  /** What the state module's semaphore sees: `app_state_init` gives, `app_state_observe` takes without waiting. */
  datatype Event = InitEvent | ObserveEvent

  /** The `update_actual` count after an event, the semaphore's limit being 1. */
  function CountAfter(count: nat, e: Event): nat
  {
    match e
      case InitEvent => if count < 1 then count + 1 else count
      case ObserveEvent => if count > 0 then count - 1 else count
  }

  /** Whether the event sends the actual state: an observe that found a unit to take. */
  predicate Reports(count: nat, e: Event)
  {
    e == ObserveEvent && count > 0
  }

  /** The number of actual-state reports a series of events sends, from a semaphore count. */
  function ReportCount(count: nat, es: seq<Event>): nat
    decreases |es|
  {
    if es == [] then 0
    else (if Reports(count, es[0]) then 1 else 0) + ReportCount(CountAfter(count, es[0]), es[1..])
  }

  function InitCount(es: seq<Event>): nat
    decreases |es|
  {
    if es == [] then 0 else (if es[0] == InitEvent then 1 else 0) + InitCount(es[1..])
  }

  /**
   * Observes report the actual state at most once per `app_state_init`
   * (plus the unit the semaphore may already hold), however many times
   * the client reconnects.
   */
  lemma {:induction false} ReportsAtMostOncePerInit(count: nat, es: seq<Event>)
    requires count <= 1
    ensures ReportCount(count, es) <= count + InitCount(es)
    decreases |es|
  {
    if es != [] {
      ReportsAtMostOncePerInit(CountAfter(count, es[0]), es[1..]);
    }
  }

  /** The first observe after an init reports, and a second one before the next init does not. */
  lemma InitThenObserveReportsOnce(count: nat, observes: nat)
    requires count <= 1
    ensures ReportCount(count, [InitEvent] + seq(observes, _ => ObserveEvent)) == if observes > 0 then 1 else 0
  {
    var es := [InitEvent] + seq(observes, _ => ObserveEvent);
    assert es[1..] == seq(observes, _ => ObserveEvent);
    NoUnitNoReport(observes);
    if observes > 0 {
      var rest := seq(observes, _ => ObserveEvent);
      assert rest[1..] == seq(observes - 1, _ => ObserveEvent);
      NoUnitNoReport(observes - 1);
    }
  }

  /** With the semaphore empty, observes send nothing. */
  lemma {:induction false} NoUnitNoReport(n: nat)
    ensures ReportCount(0, seq(n, _ => ObserveEvent)) == 0
  {
    if n > 0 {
      assert seq(n, _ => ObserveEvent)[1..] == seq(n - 1, _ => ObserveEvent);
      NoUnitNoReport(n - 1);
    }
  }

  /** The module's globals: `warning_indicator`, `client` and the `update_actual` semaphore. */
  class State {
    var warningIndicator: uint32
    const client: Client<StatePayload>
    const updateActual: Semaphore

    predicate Valid()
      reads this, updateActual
    {
      updateActual.limit == 1 && updateActual.Valid()
    }

    /** `uint32_t warning_indicator = 0` and `K_SEM_DEFINE(update_actual, 0, 1)`. */
    constructor (client: Client<StatePayload>)
      ensures Valid() && fresh(updateActual)
      ensures warningIndicator == 0 && this.client == client && updateActual.count == 0
    {
      warningIndicator := 0;
      this.client := client;
      updateActual := new Semaphore(0, 1);
    }

    /** `set_warning_indicator`. */
    method SetWarningIndicator(value: uint32)
      modifies this
      ensures warningIndicator == value
    {
      warningIndicator := value;
    }

    /** `app_state_init`: the client is the one passed to the constructor; one unit is given to `update_actual`. */
    method Init()
      requires Valid()
      modifies updateActual
      ensures Valid()
      ensures updateActual.count == CountAfter(old(updateActual.count), InitEvent)
    {
      updateActual.Give();
    }

    /** `reset_desired_state`; the client's status is only logged. */
    method ResetDesiredState() returns (ghost c: Call<StatePayload>)
      modifies client
      ensures client.calls == old(client.calls) + [c] && c.request == ResetDesired
    {
      var err := client.Send(ResetDesired);
      c := Call(ResetDesired, err);
    }

    /** `app_state_update_actual`; the client's status is only logged. */
    method UpdateActual() returns (ghost c: Call<StatePayload>)
      modifies client
      ensures client.calls == old(client.calls) + [c] && c.request == ReportActual(warningIndicator)
    {
      var err := client.Send(ReportActual(warningIndicator));
      c := Call(ReportActual(warningIndicator), err);
    }

    /**
     * `app_state_desired_handler`: counts the processed and the changed
     * values as the C code does, then reports the actual state if something
     * changed and resets the desired state if something was processed. The
     * result is exactly `Expected`.
     */
    method DesiredHandler(d: Delivery) returns (status: int, ghost sent: seq<Call<StatePayload>>)
      modifies this, client
      ensures client.calls == old(client.calls) + sent
      ensures var h := Expected(d, old(warningIndicator));
        status == h.status && warningIndicator == h.indicator && Requests(sent) == h.requests
    {
      sent := [];
      if d.err != 0 {
        return d.err, sent;
      }
      ghost var c;
      if d.ret < 0 {
        c := ResetDesiredState();
        return 0, [c];
      }
      var processed: uint8 := 0;
      var changed: uint8 := 0;
      if d.ret % 2 == 1 {
        if d.warning == 0 || d.warning == 1 {
          warningIndicator := d.warning;
          processed := processed + 1;
          changed := changed + 1;
        } else if d.warning == -1 {
        } else {
          processed := processed + 1;
        }
      }
      if changed != 0 {
        c := UpdateActual();
        sent := sent + [c];
      }
      if processed != 0 {
        c := ResetDesiredState();
        sent := sent + [c];
      }
      status := 0;
    }

    /**
     * `app_state_observe`: observe the desired endpoint, then report the
     * actual state only if a unit could be taken from `update_actual`
     * without waiting.
     */
    method Observe()
      requires Valid()
      modifies client, updateActual
      ensures Valid()
      ensures updateActual.count == CountAfter(old(updateActual.count), ObserveEvent)
      ensures |client.calls| == |old(client.calls)| + (if Reports(old(updateActual.count), ObserveEvent) then 2 else 1)
      ensures client.calls[..|old(client.calls)|] == old(client.calls)
      ensures client.calls[|old(client.calls)|].request == LightdbObserve(DesiredEndpoint)
      ensures Reports(old(updateActual.count), ObserveEvent) ==>
        client.calls[|old(client.calls)| + 1].request == ReportActual(warningIndicator)
    {
      var err := client.Send(LightdbObserve(DesiredEndpoint));
      var taken := updateActual.TryTake();
      if taken == 0 {
        ghost var c := UpdateActual();
      }
    }
  }

  /** `uint8_t`, the type of the handler's two counters. */
  type uint8 = x: int | 0 <= x < 0x100
}
