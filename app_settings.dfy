/**
 * app_settings.c: the five remotely configurable settings, their compiled-in
 * defaults, the getters, and the `on_setting` callback that type-checks and
 * range-checks an incoming value, stores it only when it differs from the
 * stored one, and then either raises the setting's "pending hardware write"
 * flag or, for the loop delay, wakes the main thread.
 */
module AppSettings {
  import opened Stdint
  import opened Wrappers

  /** The `enum golioth_settings_status` results the callback returns. */
  datatype Status = Success | KeyNotRecognized | FormatNotValid | OutsideRange

  /** `struct golioth_settings_value`: the declared type and its payload. */
  datatype SettingValue =
    | BoolValue(b: bool)
    | Int64Value(i64: int64)
    | FloatValue(f: real)
    | StringValue(s: string)

  /** The settings the callback recognises. */
  datatype Param = LoopDelay | TemperatureOffset | Altitude | Asc | CleaningInterval

  const AllParams: seq<Param> := [LoopDelay, TemperatureOffset, Altitude, Asc, CleaningInterval]

  function KeyOf(p: Param): string
  {
    match p
    case LoopDelay => "LOOP_DELAY_S"
    case TemperatureOffset => "CO2_SENSOR_TEMPERATURE_OFFSET"
    case Altitude => "CO2_SENSOR_ALTITUDE"
    case Asc => "CO2_SENSOR_ASC_ENABLE"
    case CleaningInterval => "PM_SENSOR_AUTO_CLEANING_INTERVAL"
  }

  /** The setting a key names: exactly the five keys are recognised, each naming its own setting. */
  function ParamOf(key: string): (r: Option<Param>)
    ensures r.Some? <==> exists p :: p in AllParams && KeyOf(p) == key
    ensures r.Some? ==> KeyOf(r.value) == key
  {
    if key == KeyOf(LoopDelay) then Some(LoopDelay)
    else if key == KeyOf(TemperatureOffset) then Some(TemperatureOffset)
    else if key == KeyOf(Altitude) then Some(Altitude)
    else if key == KeyOf(Asc) then Some(Asc)
    else if key == KeyOf(CleaningInterval) then Some(CleaningInterval)
    else None
  }

  /** The module's static globals `_loop_delay_s`, `_scd4x_*_s`, `_sps30_cleaning_interval_s`. */
  datatype Values = Values(
    loopDelay: int32,
    temperatureOffset: int32,
    altitude: uint16,
    asc: bool,
    cleaningInterval: uint32)

  /** The `update_*` flags: a hardware write of that setting is pending. */
  datatype Pending = Pending(
    temperatureOffset: bool,
    altitude: bool,
    asc: bool,
    cleaningInterval: bool)

  datatype Store = Store(values: Values, pending: Pending)

  /** The compiled-in state at boot: every hardware setting still to be written. */
  const Initial: Store := Store(Values(60, 0, 0, true, 604800), Pending(true, true, true, true))

  /** A value as the module stores it. */
  datatype Stored = IntStored(n: int) | BoolStored(b: bool)

  function Get(v: Values, p: Param): Stored
  {
    match p
    case LoopDelay => IntStored(v.loopDelay)
    case TemperatureOffset => IntStored(v.temperatureOffset)
    case Altitude => IntStored(v.altitude)
    case Asc => BoolStored(v.asc)
    case CleaningInterval => IntStored(v.cleaningInterval)
  }

  /** `x` fits the C type of `p`'s global. */
  predicate Fits(p: Param, x: Stored)
  {
    match p
    case LoopDelay => x.IntStored? && INT32_MIN <= x.n <= INT32_MAX
    case TemperatureOffset => x.IntStored? && INT32_MIN <= x.n <= INT32_MAX
    case Altitude => x.IntStored? && 0 <= x.n < 0x1_0000
    case Asc => x.BoolStored?
    case CleaningInterval => x.IntStored? && 0 <= x.n <= UINT32_MAX
  }

  function Set(v: Values, p: Param, x: Stored): (r: Values)
    requires Fits(p, x)
    ensures Get(r, p) == x
    ensures forall q :: q != p ==> Get(r, q) == Get(v, q)
  {
    match p
    case LoopDelay => v.(loopDelay := x.n)
    case TemperatureOffset => v.(temperatureOffset := x.n)
    case Altitude => v.(altitude := x.n)
    case Asc => v.(asc := x.b)
    case CleaningInterval => v.(cleaningInterval := x.n)
  }

  /** The pending flag of `p`; the loop delay has none. */
  function Flag(f: Pending, p: Param): bool
  {
    match p
    case LoopDelay => false
    case TemperatureOffset => f.temperatureOffset
    case Altitude => f.altitude
    case Asc => f.asc
    case CleaningInterval => f.cleaningInterval
  }

  function Raise(f: Pending, p: Param): (r: Pending)
    ensures p != LoopDelay ==> Flag(r, p)
    ensures forall q :: q != p ==> Flag(r, q) == Flag(f, q)
    ensures p == LoopDelay ==> r == f
  {
    match p
    case LoopDelay => f
    case TemperatureOffset => f.(temperatureOffset := true)
    case Altitude => f.(altitude := true)
    case Asc => f.(asc := true)
    case CleaningInterval => f.(cleaningInterval := true)
  }

  /** The closed interval a numeric setting must lie in. */
  function Lo(p: Param): int
  {
    match p
    case LoopDelay => 1
    case TemperatureOffset => INT32_MIN
    case Altitude => INT16_MIN
    case Asc => 0
    case CleaningInterval => 0
  }

  function Hi(p: Param): int
  {
    match p
    case LoopDelay => 43200
    case TemperatureOffset => INT32_MAX
    case Altitude => INT16_MAX
    case Asc => 0
    case CleaningInterval => UINT32_MAX
  }

  datatype Checked = Accepted(x: Stored) | Rejected(status: Status)

  /**
   * Type check, then range check: the ASC flag must be a boolean, every
   * other setting an INT64 in its interval; an accepted value comes back in
   * its stored form (the altitude cast to uint16).
   */
  function Check(p: Param, v: SettingValue): (r: Checked)
    ensures r.Rejected? ==> r.status == FormatNotValid || r.status == OutsideRange
    ensures r.Accepted? ==> Fits(p, r.x)
    ensures r.Rejected? && r.status == FormatNotValid <==> (if p == Asc then !v.BoolValue? else !v.Int64Value?)
  {
    if p == Asc then
      if v.BoolValue? then Accepted(BoolStored(v.b)) else Rejected(FormatNotValid)
    else if !v.Int64Value? then Rejected(FormatNotValid)
    else if v.i64 < Lo(p) || v.i64 > Hi(p) then Rejected(OutsideRange)
    else if p == Altitude then Accepted(IntStored(ToUint16(v.i64)))
    else Accepted(IntStored(v.i64))
  }

  /** What `on_setting` returns and leaves behind, and whether it wakes the main thread. */
  datatype Outcome = Outcome(status: Status, store: Store, wake: bool)

  /** `on_setting` once the key has been recognised as `p`. */
  function Update(s: Store, p: Param, v: SettingValue): Outcome
  {
    match Check(p, v)
    case Rejected(e) => Outcome(e, s, false)
    case Accepted(x) =>
      if Get(s.values, p) == x then Outcome(Success, s, false)
      else Outcome(Success, Store(Set(s.values, p, x), Raise(s.pending, p)), p == LoopDelay)
  }

  function Respond(s: Store, key: string, v: SettingValue): Outcome
  {
    match ParamOf(key)
    case None => Outcome(KeyNotRecognized, s, false)
    case Some(p) => Update(s, p, v)
  }

  /**
   * The module's globals. `wakeRequests` counts the calls of
   * `wake_system_thread` (defined in main.c, which is not part of this model).
   */
  class SettingsStore {
    var loopDelay: int32
    var temperatureOffset: int32
    var altitude: uint16
    var asc: bool
    var cleaningInterval: uint32
    var updateTemperatureOffset: bool
    var updateAltitude: bool
    var updateAsc: bool
    var updateCleaningInterval: bool
    var wakeRequests: nat

    function Snapshot(): Store
      reads this
    {
      Store(Values(loopDelay, temperatureOffset, altitude, asc, cleaningInterval),
            Pending(updateTemperatureOffset, updateAltitude, updateAsc, updateCleaningInterval))
    }

    /** The static initialisers. */
    constructor ()
      ensures Snapshot() == Initial && wakeRequests == 0
    {
      loopDelay, temperatureOffset, altitude, asc, cleaningInterval := 60, 0, 0, true, 604800;
      updateTemperatureOffset, updateAltitude, updateAsc, updateCleaningInterval := true, true, true, true;
      wakeRequests := 0;
    }

    function GetLoopDelay(): int32 reads this { loopDelay }
    function GetTemperatureOffset(): int32 reads this { temperatureOffset }
    function GetAltitude(): uint16 reads this { altitude }
    function GetAsc(): bool reads this { asc }
    function GetCleaningInterval(): uint32 reads this { cleaningInterval }

    /** `on_setting`. */
    method OnSetting(key: string, value: SettingValue) returns (status: Status)
      modifies this
      ensures var o := Respond(old(Snapshot()), key, value);
        && status == o.status
        && Snapshot() == o.store
        && wakeRequests == old(wakeRequests) + (if o.wake then 1 else 0)
    {
      ghost var s := Snapshot();
      if key == "LOOP_DELAY_S" {
        assert Respond(s, key, value) == Update(s, LoopDelay, value);
        status := OnLoopDelay(value);
      } else if key == "CO2_SENSOR_TEMPERATURE_OFFSET" {
        assert Respond(s, key, value) == Update(s, TemperatureOffset, value);
        status := OnTemperatureOffset(value);
      } else if key == "CO2_SENSOR_ALTITUDE" {
        assert Respond(s, key, value) == Update(s, Altitude, value);
        status := OnAltitude(value);
      } else if key == "CO2_SENSOR_ASC_ENABLE" {
        assert Respond(s, key, value) == Update(s, Asc, value);
        status := OnAsc(value);
      } else if key == "PM_SENSOR_AUTO_CLEANING_INTERVAL" {
        assert Respond(s, key, value) == Update(s, CleaningInterval, value);
        status := OnCleaningInterval(value);
      } else {
        assert ParamOf(key) == None;
        status := KeyNotRecognized;
      }
    }

    method OnLoopDelay(value: SettingValue) returns (status: Status)
      modifies this
      ensures var o := Update(old(Snapshot()), LoopDelay, value);
        && status == o.status
        && Snapshot() == o.store
        && wakeRequests == old(wakeRequests) + (if o.wake then 1 else 0)
    {
      if !value.Int64Value? {
        return FormatNotValid;
      }
      if value.i64 < 1 || value.i64 > 43200 {
        return OutsideRange;
      }
      if loopDelay != value.i64 {
        loopDelay := value.i64;
        wakeRequests := wakeRequests + 1;
      }
      return Success;
    }

    method OnTemperatureOffset(value: SettingValue) returns (status: Status)
      modifies this
      ensures var o := Update(old(Snapshot()), TemperatureOffset, value);
        && status == o.status
        && Snapshot() == o.store
        && wakeRequests == old(wakeRequests)
    {
      if !value.Int64Value? {
        return FormatNotValid;
      }
      if value.i64 < INT32_MIN || value.i64 > INT32_MAX {
        return OutsideRange;
      }
      if temperatureOffset != value.i64 {
        temperatureOffset := value.i64;
        updateTemperatureOffset := true;
      }
      return Success;
    }

    method OnAltitude(value: SettingValue) returns (status: Status)
      modifies this
      ensures var o := Update(old(Snapshot()), Altitude, value);
        && status == o.status
        && Snapshot() == o.store
        && wakeRequests == old(wakeRequests)
    {
      if !value.Int64Value? {
        return FormatNotValid;
      }
      if value.i64 < INT16_MIN || value.i64 > INT16_MAX {
        return OutsideRange;
      }
      if altitude != ToUint16(value.i64) {
        altitude := ToUint16(value.i64);
        updateAltitude := true;
      }
      return Success;
    }

    method OnAsc(value: SettingValue) returns (status: Status)
      modifies this
      ensures var o := Update(old(Snapshot()), Asc, value);
        && status == o.status
        && Snapshot() == o.store
        && wakeRequests == old(wakeRequests)
    {
      if !value.BoolValue? {
        return FormatNotValid;
      }
      if asc != value.b {
        asc := value.b;
        updateAsc := true;
      }
      return Success;
    }

    method OnCleaningInterval(value: SettingValue) returns (status: Status)
      modifies this
      ensures var o := Update(old(Snapshot()), CleaningInterval, value);
        && status == o.status
        && Snapshot() == o.store
        && wakeRequests == old(wakeRequests)
    {
      if !value.Int64Value? {
        return FormatNotValid;
      }
      if value.i64 < 0 || value.i64 > UINT32_MAX {
        return OutsideRange;
      }
      if cleaningInterval != value.i64 {
        cleaningInterval := value.i64;
        updateCleaningInterval := true;
      }
      return Success;
    }
  }

  /** A numeric setting is accepted exactly when it is an INT64 inside its interval. */
  lemma AcceptedIffInRange(s: Store, p: Param, v: int64)
    requires p != Asc
    ensures Respond(s, KeyOf(p), Int64Value(v)).status == Success <==> Lo(p) <= v <= Hi(p)
    ensures !(Lo(p) <= v <= Hi(p)) ==> Respond(s, KeyOf(p), Int64Value(v)).status == OutsideRange
  {
  }

  /** The loop delay's end points: 43200 is accepted, 0 and 43201 are outside the range. */
  lemma LoopDelayEndPoints(s: Store)
    ensures Respond(s, "LOOP_DELAY_S", Int64Value(43200)).status == Success
    ensures Respond(s, "LOOP_DELAY_S", Int64Value(1)).status == Success
    ensures Respond(s, "LOOP_DELAY_S", Int64Value(0)).status == OutsideRange
    ensures Respond(s, "LOOP_DELAY_S", Int64Value(43201)).status == OutsideRange
    ensures Respond(s, "CO2_SENSOR_ASC_ENABLE", StringValue("yes")).status == FormatNotValid
  {
    AcceptedIffInRange(s, LoopDelay, 43200);
    AcceptedIffInRange(s, LoopDelay, 1);
    AcceptedIffInRange(s, LoopDelay, 0);
    AcceptedIffInRange(s, LoopDelay, 43201);
  }

  /** A value of the wrong type is refused as FORMAT_NOT_VALID, before any range check. */
  lemma WrongTypeIsFormatNotValid(s: Store, p: Param, v: SettingValue)
    requires if p == Asc then !v.BoolValue? else !v.Int64Value?
    ensures Respond(s, KeyOf(p), v) == Outcome(FormatNotValid, s, false)
  {
  }

  /** Every rejection leaves the values and flags as they were and wakes nobody. */
  lemma RejectionChangesNothing(s: Store, key: string, v: SettingValue)
    ensures Respond(s, key, v).status != Success ==> Respond(s, key, v) == Outcome(Respond(s, key, v).status, s, false)
    ensures ParamOf(key).None? ==> Respond(s, key, v) == Outcome(KeyNotRecognized, s, false)
  {
  }

  /** An accepted value equal to the stored one changes nothing and wakes nobody. */
  lemma UnchangedValueIsQuiet(s: Store, p: Param, v: SettingValue)
    requires Check(p, v).Accepted? && Check(p, v).x == Get(s.values, p)
    ensures Respond(s, KeyOf(p), v) == Outcome(Success, s, false)
  {
  }

  /**
   * An accepted value that differs from the stored one is stored, raises
   * its own pending flag and no other, and wakes the main thread exactly
   * when it is the loop delay.
   */
  lemma {:induction false} ChangedValueRaisesOwnFlag(s: Store, p: Param, v: SettingValue)
    requires Check(p, v).Accepted? && Check(p, v).x != Get(s.values, p)
    ensures var o := Respond(s, KeyOf(p), v);
      && o.status == Success
      && Get(o.store.values, p) == Check(p, v).x
      && (p != LoopDelay ==> Flag(o.store.pending, p))
      && (forall q :: q != p ==> Get(o.store.values, q) == Get(s.values, q) && Flag(o.store.pending, q) == Flag(s.pending, q))
      && (o.wake <==> p == LoopDelay)
  {
    assert ParamOf(KeyOf(p)) == Some(p) by {
      assert KeyOf(p) == KeyOf(ParamOf(KeyOf(p)).value);
    }
  }

  /** Submitting the same value twice: the second submission is accepted and changes nothing. */
  lemma {:induction false} SecondSubmissionIsQuiet(s: Store, key: string, v: SettingValue)
    requires Respond(s, key, v).status == Success
    ensures var s1 := Respond(s, key, v).store;
      Respond(s1, key, v) == Outcome(Success, s1, false)
  {
    var p := ParamOf(key).value;
    var x := Check(p, v).x;
    var s1 := Respond(s, key, v).store;
    assert Get(s1.values, p) == x;
  }

  /**
   * The altitude is stored as the uint16 cast of an accepted int16 value;
   * two accepted altitudes are stored alike only when they are equal, so the
   * change detection compares the values themselves.
   */
  lemma AltitudeChangeDetectionExact(a: int64, b: int64)
    requires Check(Altitude, Int64Value(a)).Accepted? && Check(Altitude, Int64Value(b)).Accepted?
    ensures Check(Altitude, Int64Value(a)).x == Check(Altitude, Int64Value(b)).x <==> a == b
  {
    Uint16CastInjective(a, b);
  }

  /** The store after the settings service delivered `vs` under `key`, one after the other. */
  function Apply(s: Store, key: string, vs: seq<SettingValue>): Store
    decreases |vs|
  {
    if vs == [] then s else Apply(Respond(s, key, vs[0]).store, key, vs[1..])
  }

  /**
   * Coalescing: after a burst of accepted values for one hardware setting,
   * the store holds the last of them, its flag is raised if it was raised
   * before or the value differs from the one before the burst, and no
   * other setting's value or flag has moved.
   */
  lemma {:induction false} BurstKeepsLatest(s: Store, p: Param, vs: seq<SettingValue>)
    requires p != LoopDelay && vs != []
    requires forall k :: 0 <= k < |vs| ==> Check(p, vs[k]).Accepted?
    ensures Get(Apply(s, KeyOf(p), vs).values, p) == Check(p, vs[|vs| - 1]).x
    ensures Flag(s.pending, p) || Get(s.values, p) != Get(Apply(s, KeyOf(p), vs).values, p)
            ==> Flag(Apply(s, KeyOf(p), vs).pending, p)
    ensures forall q :: q != p ==> Get(Apply(s, KeyOf(p), vs).values, q) == Get(s.values, q)
    ensures forall q :: q != p ==> Flag(Apply(s, KeyOf(p), vs).pending, q) == Flag(s.pending, q)
    decreases |vs|
  {
    var s1 := Respond(s, KeyOf(p), vs[0]).store;
    assert ParamOf(KeyOf(p)) == Some(p);
    var x := Check(p, vs[0]).x;
    assert Get(s1.values, p) == x;
    assert Flag(s.pending, p) || Get(s.values, p) != x ==> Flag(s1.pending, p);
    assert forall q :: q != p ==> Get(s1.values, q) == Get(s.values, q);
    assert forall q :: q != p ==> Flag(s1.pending, q) == Flag(s.pending, q);
    if |vs| > 1 {
      BurstKeepsLatest(s1, p, vs[1..]);
    }
  }
}
