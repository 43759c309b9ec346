/** Model of `sensorInput`: one Android sensor bound to up to four buffers (x, y, z, t).
    The constructor maps the phyphox sensor name to an Android sensor type and the rate to
    a sampling period; every sensor event then runs a rate-limit / averaging step that
    decides whether one value is appended to each bound buffer. */
module SensorInput {
  import opened Wrappers
  import opened DataBuffers

  // ---------------------------------------------------------------------------------------
  // Sensor kinds and their names

  /** The six sensor kinds the phyphox file format can name. */
  datatype SensorKind = LinearAcceleration | Light | Gyroscope | Accelerometer | MagneticField | Pressure

  /** Android's `Sensor.TYPE_*` identifier of each kind. */
  function TypeId(k: SensorKind): int
  {
    match k
    case Accelerometer => 1
    case MagneticField => 2
    case Gyroscope => 4
    case Light => 5
    case Pressure => 6
    case LinearAcceleration => 10
  }

  /** The name under which a kind appears in an experiment file. */
  function NameOf(k: SensorKind): string
  {
    match k
    case LinearAcceleration => "linear_acceleration"
    case Light => "light"
    case Gyroscope => "gyroscope"
    case Accelerometer => "accelerometer"
    case MagneticField => "magnetic_field"
    case Pressure => "pressure"
  }

  const RecognisedNames: set<string> :=
    {"linear_acceleration", "light", "gyroscope", "accelerometer", "magnetic_field", "pressure"}

  /** The constructor's `switch (type)`: a recognised name gives its kind, anything else is
      the "Unknown sensor." exception (here `None`). */
  function KindOfName(name: string): (r: Option<SensorKind>)
    ensures r.Some? <==> name in RecognisedNames
    ensures r.Some? ==> NameOf(r.value) == name
  {
    if name == "linear_acceleration" then Some(LinearAcceleration)
    else if name == "light" then Some(Light)
    else if name == "gyroscope" then Some(Gyroscope)
    else if name == "accelerometer" then Some(Accelerometer)
    else if name == "magnetic_field" then Some(MagneticField)
    else if name == "pressure" then Some(Pressure)
    else None
  }

  /** Names and kinds are in one-to-one correspondence, and so are kinds and Android types. */
  lemma NameKindRoundTrip(k: SensorKind, k': SensorKind)
    ensures KindOfName(NameOf(k)) == Some(k)
    ensures TypeId(k) == TypeId(k') ==> k == k'
  {
  }

  /** String resources returned by `getDescriptionRes`. */
  datatype Description =
    SensorLinearAcceleration | SensorLight | SensorGyroscope | SensorAccelerometer
    | SensorMagneticField | SensorPressure | Unknown

  function DescriptionOfKind(k: SensorKind): Description
  {
    match k
    case LinearAcceleration => SensorLinearAcceleration
    case Light => SensorLight
    case Gyroscope => SensorGyroscope
    case Accelerometer => SensorAccelerometer
    case MagneticField => SensorMagneticField
    case Pressure => SensorPressure
  }

  /** `getDescriptionRes`: the description of the sensor type, `unknown` for any other type.
      (The assignments `this.type = ...` in its branches store the value already held.) */
  function DescriptionRes(sensorType: int): (r: Description)
    ensures r == Unknown <==> forall k :: TypeId(k) != sensorType
    ensures forall k :: TypeId(k) == sensorType ==> r == DescriptionOfKind(k)
  {
    if sensorType == 10 then assert TypeId(LinearAcceleration) == 10; SensorLinearAcceleration
    else if sensorType == 5 then assert TypeId(Light) == 5; SensorLight
    else if sensorType == 4 then assert TypeId(Gyroscope) == 4; SensorGyroscope
    else if sensorType == 1 then assert TypeId(Accelerometer) == 1; SensorAccelerometer
    else if sensorType == 2 then assert TypeId(MagneticField) == 2; SensorMagneticField
    else if sensorType == 6 then assert TypeId(Pressure) == 6; SensorPressure
    else Unknown
  }

  // ---------------------------------------------------------------------------------------
  // Rate and period

  const LongMax: int := 0x7fff_ffff_ffff_ffff
  const NanosPerSecond: real := 1_000_000_000.0

  /** `period`: 0 for a rate <= 0 ("as fast as possible"), otherwise the nanosecond period
      (1/rate)*1e9 truncated by the cast to `long`, which saturates at Long.MAX_VALUE. */
  function PeriodOf(rate: real): (p: int)
    ensures 0 <= p <= LongMax
    ensures rate <= 0.0 ==> p == 0
    ensures rate > 0.0 && p < LongMax ==> p as real <= NanosPerSecond / rate < (p + 1) as real
    ensures rate > 0.0 && p == LongMax ==> LongMax as real <= NanosPerSecond / rate
  {
    if rate <= 0.0 then 0
    else
      var q := (NanosPerSecond / rate).Floor;
      if q > LongMax then LongMax else q
  }

  // ---------------------------------------------------------------------------------------
  // The per-event state machine, as a function of the channel's state

  /** One `SensorEvent`: the Android type of the sensor that produced it, its timestamp in
      nanoseconds and its values. */
  datatype SensorEvent = SensorEvent(sensorType: int, timestamp: int, values: seq<real>)

  /** What `onSensorChanged` reads of the object besides its state. */
  datatype Config = Config(sensorType: int, period: int, average: bool)

  /** The fields `t0`, `lastReading`, `avgX/Y/Z` and `aquisitions`. */
  datatype Channel = Channel(t0: int, lastReading: int, avgX: real, avgY: real, avgZ: real, aquisitions: int)

  /** The four values appended when a reading is emitted. */
  datatype Sample = Sample(x: real, y: real, z: real, t: real)

  /** The state `start()` leaves behind. */
  const Started: Channel := Channel(0, 0, 0.0, 0.0, 0.0, 0)

  /** Nothing accumulated: the state after `start()` and after every emission. */
  predicate Empty(s: Channel)
  {
    s.avgX == 0.0 && s.avgY == 0.0 && s.avgZ == 0.0 && s.aquisitions == 0
  }

  /** The time value of a reading: (timestamp - t0) * 1e-9 seconds. */
  function Seconds(ns: int): real
  {
    ns as real / NanosPerSecond
  }

  predicate Matches(cfg: Config, e: SensorEvent)
  {
    e.sensorType == cfg.sensorType
  }

  /** The body of `onSensorChanged`: the new state and the reading emitted, if any. */
  function OnEvent(cfg: Config, s: Channel, e: SensorEvent): (r: (Channel, Option<Sample>))
    requires s.aquisitions >= 0 && |e.values| >= 3
    ensures r.0.aquisitions >= 0
    ensures r.0.t0 == (if s.t0 == 0 then e.timestamp else s.t0)
    ensures r.1.Some? <==> Matches(cfg, e) && s.lastReading + cfg.period <= e.timestamp
    ensures !Matches(cfg, e) ==> r.0 == s.(t0 := r.0.t0)
    ensures r.1.Some? ==> Empty(r.0) && r.0.lastReading == e.timestamp
                          && r.1.value.t == Seconds(e.timestamp - r.0.t0)
    ensures r.1.None? ==> r.0.lastReading == s.lastReading
  {
    var t0 := if s.t0 == 0 then e.timestamp else s.t0;
    if e.sensorType != cfg.sensorType then
      (s.(t0 := t0), None)
    else
      var ax := if cfg.average then s.avgX + e.values[0] else e.values[0];
      var ay := if cfg.average then s.avgY + e.values[1] else e.values[1];
      var az := if cfg.average then s.avgZ + e.values[2] else e.values[2];
      var n := if cfg.average then s.aquisitions + 1 else 1;
      if s.lastReading + cfg.period <= e.timestamp then
        (Channel(t0, e.timestamp, 0.0, 0.0, 0.0, 0),
         Some(Sample(ax / n as real, ay / n as real, az / n as real, Seconds(e.timestamp - t0))))
      else
        (Channel(t0, s.lastReading, ax, ay, az, n), None)
  }

  /** The values of one event: without averaging the count is forced to 1, so an emission
      carries the current event's values and otherwise they are held for the next one;
      with averaging the event joins the window, and an emission is the window's mean. */
  lemma OnEventValues(cfg: Config, s: Channel, e: SensorEvent)
    requires s.aquisitions >= 0 && |e.values| >= 3 && Matches(cfg, e)
    ensures var r := OnEvent(cfg, s, e);
            && (!cfg.average && r.1.Some? ==>
                  r.1.value.x == e.values[0] && r.1.value.y == e.values[1] && r.1.value.z == e.values[2])
            && (!cfg.average && r.1.None? ==>
                  r.0.avgX == e.values[0] && r.0.avgY == e.values[1] && r.0.avgZ == e.values[2]
                  && r.0.aquisitions == 1)
            && (cfg.average && r.1.Some? ==>
                  var n := (s.aquisitions + 1) as real;
                  r.1.value.x == (s.avgX + e.values[0]) / n && r.1.value.y == (s.avgY + e.values[1]) / n
                  && r.1.value.z == (s.avgZ + e.values[2]) / n)
            && (cfg.average && r.1.None? ==>
                  r.0.avgX == s.avgX + e.values[0] && r.0.avgY == s.avgY + e.values[1]
                  && r.0.avgZ == s.avgZ + e.values[2] && r.0.aquisitions == s.aquisitions + 1)
  {
  }

  predicate WellFormed(events: seq<SensorEvent>)
  {
    forall i :: 0 <= i < |events| ==> |events[i].values| >= 3
  }

  /** A sequence of events delivered one after another: the final state and every reading
      emitted, in order. */
  function Run(cfg: Config, s: Channel, events: seq<SensorEvent>): (r: (Channel, seq<Sample>))
    requires s.aquisitions >= 0 && WellFormed(events)
    ensures r.0.aquisitions >= 0
    // at most one reading per event
    ensures |r.1| <= |events|
    decreases |events|
  {
    if events == [] then (s, [])
    else
      var step := OnEvent(cfg, s, events[0]);
      var rest := Run(cfg, step.0, events[1..]);
      (rest.0, (if step.1.Some? then [step.1.value] else []) + rest.1)
  }

  /** Events of other sensors only: nothing is emitted and nothing but `t0` changes. */
  lemma {:induction false} OtherSensorsIgnored(cfg: Config, s: Channel, events: seq<SensorEvent>)
    requires s.aquisitions >= 0 && WellFormed(events)
    requires forall i :: 0 <= i < |events| ==> !Matches(cfg, events[i])
    ensures Run(cfg, s, events).1 == []
    ensures Run(cfg, s, events).0 == s.(t0 := Run(cfg, s, events).0.t0)
    decreases |events|
  {
    if events != [] {
      var step := OnEvent(cfg, s, events[0]);
      assert forall i :: 0 <= i < |events[1..]| ==> events[1..][i] == events[i + 1];
      OtherSensorsIgnored(cfg, step.0, events[1..]);
    }
  }

  /** Component `c` of the events' values, summed. */
  function SumOf(events: seq<SensorEvent>, c: nat): real
    requires c < 3 && WellFormed(events)
    decreases |events|
  {
    if events == [] then 0.0 else events[0].values[c] + SumOf(events[1..], c)
  }

  predicate NonDecreasing(events: seq<SensorEvent>)
  {
    forall i, j :: 0 <= i < j < |events| ==> events[i].timestamp <= events[j].timestamp
  }

  /** With period 0 and timestamps that never go back, every event of the channel's own
      sensor emits exactly one reading, and that reading is the event's own values: without
      averaging the count is forced to 1, with averaging the window holds one event. */
  lemma {:induction false} PeriodZeroEmitsEveryEvent(cfg: Config, s: Channel, events: seq<SensorEvent>)
    requires cfg.period == 0 && Empty(s) && WellFormed(events) && NonDecreasing(events)
    requires forall i :: 0 <= i < |events| ==> Matches(cfg, events[i])
    requires events != [] ==> s.lastReading <= events[0].timestamp
    ensures |Run(cfg, s, events).1| == |events|
    ensures forall i :: 0 <= i < |events| ==>
              var out := Run(cfg, s, events).1[i];
              out.x == events[i].values[0] && out.y == events[i].values[1] && out.z == events[i].values[2]
    decreases |events|
  {
    if events != [] {
      var step := OnEvent(cfg, s, events[0]);
      assert step.1.Some?;
      assert forall i :: 0 <= i < |events[1..]| ==> events[1..][i] == events[i + 1];
      PeriodZeroEmitsEveryEvent(cfg, step.0, events[1..]);
    }
  }

  /** The averaging window: starting from any state, a run of events of the channel's own
      sensor of which only the last reaches `lastReading + period` emits exactly one reading,
      the accumulated sums divided by the number of events accumulated, and leaves nothing
      accumulated. */
  lemma {:induction false} AveragingWindow(cfg: Config, s: Channel, ws: seq<SensorEvent>)
    requires cfg.average && s.aquisitions >= 0 && WellFormed(ws) && |ws| >= 1
    requires forall i :: 0 <= i < |ws| ==> Matches(cfg, ws[i])
    requires forall i :: 0 <= i < |ws| - 1 ==> ws[i].timestamp < s.lastReading + cfg.period
    requires s.lastReading + cfg.period <= ws[|ws| - 1].timestamp
    ensures var r := Run(cfg, s, ws);
            var n := (s.aquisitions + |ws|) as real;
            Empty(r.0) && r.0.lastReading == ws[|ws| - 1].timestamp &&
            r.1 == [Sample((s.avgX + SumOf(ws, 0)) / n, (s.avgY + SumOf(ws, 1)) / n,
                           (s.avgZ + SumOf(ws, 2)) / n, Seconds(ws[|ws| - 1].timestamp - r.0.t0))]
    decreases |ws|
  {
    var step := OnEvent(cfg, s, ws[0]);
    if |ws| == 1 {
      assert ws[1..] == [];
    } else {
      assert step.1.None?;
      assert forall i :: 0 <= i < |ws[1..]| ==> ws[1..][i] == ws[i + 1];
      AveragingWindow(cfg, step.0, ws[1..]);
    }
  }

  /** The arithmetic mean of a window, when the window starts from an emptied state (right
      after `start()` or after the previous emission). */
  lemma AveragingWindowIsMean(cfg: Config, s: Channel, ws: seq<SensorEvent>)
    requires cfg.average && Empty(s) && WellFormed(ws) && |ws| >= 1
    requires forall i :: 0 <= i < |ws| ==> Matches(cfg, ws[i])
    requires forall i :: 0 <= i < |ws| - 1 ==> ws[i].timestamp < s.lastReading + cfg.period
    requires s.lastReading + cfg.period <= ws[|ws| - 1].timestamp
    ensures Run(cfg, s, ws).1 == [Sample(SumOf(ws, 0) / |ws| as real, SumOf(ws, 1) / |ws| as real,
                                         SumOf(ws, 2) / |ws| as real,
                                         Seconds(ws[|ws| - 1].timestamp - Run(cfg, s, ws).0.t0))]
  {
    AveragingWindow(cfg, s, ws);
  }

  /** Once `t0` is set, no event changes it. */
  lemma {:induction false} T0Kept(cfg: Config, s: Channel, events: seq<SensorEvent>)
    requires s.aquisitions >= 0 && s.t0 != 0 && WellFormed(events)
    ensures Run(cfg, s, events).0.t0 == s.t0
    decreases |events|
  {
    if events != [] {
      T0Kept(cfg, OnEvent(cfg, s, events[0]).0, events[1..]);
    }
  }

  /** After `start()` the first event received, whatever its sensor, sets `t0` (when its
      timestamp is not the sentinel 0), and later events leave it alone. */
  lemma T0SetByFirstEvent(cfg: Config, events: seq<SensorEvent>)
    requires WellFormed(events) && events != [] && events[0].timestamp != 0
    ensures Run(cfg, Started, events).0.t0 == events[0].timestamp
  {
    T0Kept(cfg, OnEvent(cfg, Started, events[0]).0, events[1..]);
  }

  predicate TimesSorted(out: seq<Sample>)
  {
    forall i, j :: 0 <= i < j < |out| ==> out[i].t <= out[j].t
  }

  /** With `t0` fixed and timestamps that never go back, the time values a channel emits
      never go back either, and none lies before the earliest timestamp. */
  lemma {:induction false} EmittedTimesSorted(cfg: Config, s: Channel, events: seq<SensorEvent>, lo: int)
    requires s.aquisitions >= 0 && s.t0 != 0 && WellFormed(events) && NonDecreasing(events)
    requires forall i :: 0 <= i < |events| ==> lo <= events[i].timestamp
    ensures TimesSorted(Run(cfg, s, events).1)
    ensures forall i :: 0 <= i < |Run(cfg, s, events).1| ==> Seconds(lo - s.t0) <= Run(cfg, s, events).1[i].t
    decreases |events|
  {
    if events != [] {
      var step := OnEvent(cfg, s, events[0]);
      var rest := events[1..];
      assert forall i :: 0 <= i < |rest| ==> rest[i] == events[i + 1];
      EmittedTimesSorted(cfg, step.0, rest, events[0].timestamp);
      var tail := Run(cfg, step.0, rest).1;
      var head := if step.1.Some? then [step.1.value] else [];
      assert Run(cfg, s, events).1 == head + tail;
      forall i | 0 <= i < |tail|
        ensures Seconds(lo - s.t0) <= tail[i].t
      {
        assert Seconds(lo - s.t0) <= Seconds(events[0].timestamp - s.t0);
      }
    }
  }

  // ---------------------------------------------------------------------------------------
  // The object

  datatype SensorError = UnknownSensor

  /** `buffers.setSize(4)`: the buffer list cut or padded with null to four entries. */
  function SetSize4(buffers: seq<DataBuffer?>): (r: seq<DataBuffer?>)
    ensures |r| == 4
    ensures forall i :: 0 <= i < 4 ==> r[i] == (if i < |buffers| then buffers[i] else null)
  {
    if |buffers| >= 4 then buffers[..4] else buffers + seq(4 - |buffers|, _ => null)
  }

  /** The value a slot contributes to buffer `b`: one value if the slot is bound to `b`. */
  function Part(slot: DataBuffer?, b: DataBuffer, v: real): seq<real>
  {
    if slot == b then [v] else []
  }

  class SensorInput {
    ghost const kind: SensorKind
    const sensorType: int
    const period: int
    const average: bool
    const dataX: DataBuffer?
    const dataY: DataBuffer?
    const dataZ: DataBuffer?
    const dataT: DataBuffer?

    var t0: int
    var lastReading: int
    var avgX: real
    var avgY: real
    var avgZ: real
    var aquisitions: int

    /** Whether the listener is registered with the sensor manager. */
    ghost var registered: bool

    ghost predicate Valid()
      reads this
    {
      sensorType == TypeId(kind) && aquisitions >= 0
    }

    function Cfg(): Config
    {
      Config(sensorType, period, average)
    }

    function State(): Channel
      reads this
    {
      Channel(t0, lastReading, avgX, avgY, avgZ, aquisitions)
    }

    /** The bound buffers (null entries are not buffers). */
    predicate IsBound(b: DataBuffer)
    {
      b == dataX || b == dataY || b == dataZ || b == dataT
    }

    /** What one emission appends to buffer `b`: one value per slot bound to `b`, in the
        order x, y, z, t. */
    function AppendedTo(b: DataBuffer, out: Option<Sample>): seq<real>
    {
      if out.None? then []
      else (Part(dataX, b, out.value.x) + Part(dataY, b, out.value.y))
           + (Part(dataZ, b, out.value.z) + Part(dataT, b, out.value.t))
    }

    /** Appends the emitted values to the non-null buffers: x, y, z and t in turn. */
    method Emit(out: Sample)
      modifies dataX, dataY, dataZ, dataT
      ensures forall b: DataBuffer :: IsBound(b) ==> b.contents == old(b.contents) + AppendedTo(b, Some(out))
    {
      AppendIfBound(dataX, out.x, dataY, out.y);
      AppendIfBound(dataZ, out.z, dataT, out.t);
    }

    /** `if (slot != null) slot.append(v)` for two slots in turn. */
    method AppendIfBound(slot1: DataBuffer?, v1: real, slot2: DataBuffer?, v2: real)
      requires slot1 == null || IsBound(slot1)
      requires slot2 == null || IsBound(slot2)
      modifies dataX, dataY, dataZ, dataT
      ensures forall b: DataBuffer :: IsBound(b) ==>
                b.contents == old(b.contents) + (Part(slot1, b, v1) + Part(slot2, b, v2))
    {
      if slot1 != null {
        slot1.Append(v1);
      }
      if slot2 != null {
        slot2.Append(v2);
      }
    }

    /** The constructor once the type name has been recognised: the period, the averaging
        flag and the four buffer slots. */
    constructor (kind: SensorKind, rate: real, average: bool, buffers: seq<DataBuffer?>)
      ensures Valid() && !registered
      ensures this.kind == kind && sensorType == TypeId(kind) && period == PeriodOf(rate) && this.average == average
      ensures [dataX, dataY, dataZ, dataT] == SetSize4(buffers)
      ensures State() == Started
    {
      var slots := SetSize4(buffers);
      this.kind := kind;
      sensorType := TypeId(kind);
      period := PeriodOf(rate);
      this.average := average;
      dataX, dataY, dataZ, dataT := slots[0], slots[1], slots[2], slots[3];
      t0, lastReading := 0, 0;
      avgX, avgY, avgZ := 0.0, 0.0, 0.0;
      aquisitions := 0;
      registered := false;
    }

    /** `getDescriptionRes`. A constructed channel always has a known description. */
    function GetDescriptionRes(): (r: Description)
      requires Valid()
      reads this
      ensures r != Unknown && r == DescriptionOfKind(kind)
    {
      DescriptionRes(sensorType)
    }

    /** `start()`: resets `t0`, `lastReading` and the accumulators, then registers. */
    method Start()
      requires Valid()
      modifies this
      ensures Valid() && registered
      ensures State() == Started
    {
      t0 := 0;
      lastReading := 0;
      avgX, avgY, avgZ := 0.0, 0.0, 0.0;
      aquisitions := 0;
      registered := true;
    }

    /** `stop()`: unregisters; the accumulators are left as they are until the next `start()`. */
    method Stop()
      modifies this
      ensures !registered && State() == old(State())
    {
      registered := false;
    }

    /** `onSensorChanged(event)`: the new state is `OnEvent` of the old one, and each bound
        buffer receives exactly the values of the slots bound to it; nothing else changes. */
    method OnSensorChanged(e: SensorEvent)
      requires Valid() && |e.values| >= 3
      modifies this`t0, this`lastReading, this`avgX, this`avgY, this`avgZ, this`aquisitions
      modifies dataX, dataY, dataZ, dataT
      ensures Valid()
      ensures State() == OnEvent(Cfg(), old(State()), e).0
      ensures var out := OnEvent(Cfg(), old(State()), e).1;
              forall b: DataBuffer :: IsBound(b) ==> b.contents == old(b.contents) + AppendedTo(b, out)
    {
      ghost var r := OnEvent(Cfg(), State(), e);
      t0 := if t0 == 0 then e.timestamp else t0;
      if e.sensorType == sensorType {
        Accumulate(e);
        if lastReading + period <= e.timestamp {
          EmitAndReset(e.timestamp);
          return;
        }
      }
      assert r.1.None?;
      assert forall b: DataBuffer :: AppendedTo(b, r.1) == [];
    }

    /** The emission step: the averages and the time since `t0` are appended, and the
        accumulator restarts at this reading. */
    method EmitAndReset(timestamp: int)
      requires Valid() && aquisitions >= 1
      modifies this`lastReading, this`avgX, this`avgY, this`avgZ, this`aquisitions
      modifies dataX, dataY, dataZ, dataT
      ensures Valid() && State() == Channel(t0, timestamp, 0.0, 0.0, 0.0, 0)
      ensures var out := Sample(old(avgX) / old(aquisitions) as real, old(avgY) / old(aquisitions) as real,
                                old(avgZ) / old(aquisitions) as real, Seconds(timestamp - t0));
              forall b: DataBuffer :: IsBound(b) ==> b.contents == old(b.contents) + AppendedTo(b, Some(out))
    {
      var out := Sample(avgX / aquisitions as real, avgY / aquisitions as real,
                        avgZ / aquisitions as real, Seconds(timestamp - t0));
      Emit(out);
      avgX, avgY, avgZ := 0.0, 0.0, 0.0;
      lastReading := timestamp;
      aquisitions := 0;
    }

    /** The accumulation step of `onSensorChanged` for a matching event: added to the
        running sums when averaging, replacing them otherwise. */
    method Accumulate(e: SensorEvent)
      requires Valid() && |e.values| >= 3
      modifies this`avgX, this`avgY, this`avgZ, this`aquisitions
      ensures Valid() && aquisitions >= 1
      ensures average ==> avgX == old(avgX) + e.values[0] && avgY == old(avgY) + e.values[1]
                          && avgZ == old(avgZ) + e.values[2] && aquisitions == old(aquisitions) + 1
      ensures !average ==> avgX == e.values[0] && avgY == e.values[1] && avgZ == e.values[2]
                           && aquisitions == 1
    {
      if average {
        avgX := avgX + e.values[0];
        avgY := avgY + e.values[1];
        avgZ := avgZ + e.values[2];
        aquisitions := aquisitions + 1;
      } else {
        avgX := e.values[0];
        avgY := e.values[1];
        avgZ := e.values[2];
        aquisitions := 1;
      }
    }
  }

  /** The constructor with its type switch: an unrecognised name raises `SensorException`
      before any buffer is bound. */
  method NewSensorInput(typeName: string, rate: real, average: bool, buffers: seq<DataBuffer?>)
    returns (r: Result<SensorInput, SensorError>)
    ensures r.Err? <==> typeName !in RecognisedNames
    ensures r.Ok? ==> fresh(r.value) && r.value.Valid() && !r.value.registered
                      && Some(r.value.sensorType) == (match KindOfName(typeName) case Some(k) => Some(TypeId(k)) case None => None)
                      && r.value.period == PeriodOf(rate) && r.value.average == average
                      && [r.value.dataX, r.value.dataY, r.value.dataZ, r.value.dataT] == SetSize4(buffers)
                      && r.value.State() == Started
  {
    var kind := KindOfName(typeName);
    if kind.None? {
      return Err(UnknownSensor);
    }
    var s := new SensorInput(kind.value, rate, average, buffers);
    return Ok(s);
  }
}
